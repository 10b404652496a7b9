/**
 * The tables the backend reads and writes through its database client, and
 * the two outside services it talks to: the job queue (`campaignQueue.add`)
 * and the WhatsApp gateway (`evolution.post`). The tables are the fields of
 * class Store; the queue and the gateway are ghost logs of what was handed to
 * them. Db is the value of the whole store, on which the specifications of
 * the routes and of the worker are written.
 */
module Store {
  import opened Wrappers
  import opened Calendar
  import Automations

  datatype CampaignStatus = Draft | Scheduled | Running | Paused | Done | Cancelled

  /** `campaign_contacts.status` and `message_logs.status`. */
  datatype RowStatus = Queued | Sending | Sent | Failed | Delivered | Read

  /** A row of `campaigns`; the delays are in seconds, the hours local. */
  datatype Campaign = Campaign(
    id: int,
    tenantId: int,
    name: string,
    messageText: Option<string>,
    mediaType: string,
    mediaUrl: Option<string>,
    mediaCaption: Option<string>,
    delayMinSeconds: int,
    delayMaxSeconds: int,
    typingSimulation: bool,
    targetTags: seq<string>,
    targetAll: bool,
    sendStartHour: int,
    sendEndHour: int,
    sendOnWeekends: bool,
    scheduledAt: Option<Timestamp>,
    status: CampaignStatus,
    contactsTotal: int,
    contactsPending: int,
    contactsSent: int,
    contactsFailed: int)

  /** A row of `tenants`. */
  datatype Tenant = Tenant(
    id: int,
    suspended: bool,
    waStatus: string,
    waInstanceId: Option<string>,
    minDelaySeconds: Option<int>,
    messagesSentMonth: int,
    messagesLimitMonth: int)

  /** A row of `contacts`. */
  datatype Contact = Contact(
    id: int,
    tenantId: int,
    name: string,
    phone: string,
    variables: map<string, string>,
    tags: seq<string>,
    active: bool,
    optedOut: bool)

  /** A row of `campaign_contacts`: one recipient of one campaign. */
  datatype QueueRow = QueueRow(
    campaignId: int,
    tenantId: int,
    contactId: int,
    status: RowStatus,
    attempts: int,
    waMessageId: Option<string>,
    errorMessage: Option<string>)

  /** A row of `message_logs`. */
  datatype MessageLog = MessageLog(
    tenantId: int,
    campaignId: int,
    contactId: int,
    phone: string,
    status: RowStatus,
    waMessageId: Option<string>,
    errorMessage: Option<string>)

  /** A row of `bot_sessions`, keyed by tenant and phone. */
  datatype Session = Session(automationId: int, currentNodeIndex: int)
  type SessionKey = (int, string)

  /** A request to the WhatsApp gateway. */
  datatype GatewayCall =
    | SendText(instance: string, number: string, text: string)
    | SendMedia(instance: string, number: string, mediaType: string, caption: string, media: Option<string>)
    | SendPresence(instance: string, number: string, ms: int)

  /** A `run` job handed to the campaign queue. */
  datatype Job = Job(campaignId: int, tenantId: int, delayMs: int, priority: Option<int>)

  /** The contact with the given id, as a join on `contacts.id` finds it. */
  function ContactById(contacts: seq<Contact>, id: int): (c: Option<Contact>)
    ensures c.Some? ==> c.value in contacts && c.value.id == id
    ensures c.None? ==> forall k :: 0 <= k < |contacts| ==> contacts[k].id != id
  {
    if contacts == [] then None
    else if contacts[0].id == id then Some(contacts[0])
    else ContactById(contacts[1..], id)
  }

  /** The whole store as a value. */
  datatype Db = Db(
    campaigns: map<int, Campaign>,
    tenants: map<int, Tenant>,
    contacts: seq<Contact>,
    rows: seq<QueueRow>,
    logs: seq<MessageLog>,
    sessions: map<SessionKey, Session>,
    automations: seq<Automations.Automation>,
    nodes: seq<Automations.NodeRow>,
    nextCampaignId: int,
    calls: seq<GatewayCall>,
    jobs: seq<Job>,
    sleeps: seq<int>)

  class Store {
    var campaigns: map<int, Campaign>
    var tenants: map<int, Tenant>
    /** `contacts`, in table order. */
    var contacts: seq<Contact>
    /** `campaign_contacts`, in `queued_at` order. */
    var rows: seq<QueueRow>
    var logs: seq<MessageLog>
    var sessions: map<SessionKey, Session>
    /** `automations`, in table order. */
    var automations: seq<Automations.Automation>
    /** `automation_nodes`, in table order. */
    var nodes: seq<Automations.NodeRow>
    /** The id the next inserted campaign receives. */
    var nextCampaignId: int
    /** Requests sent to the gateway, in order. */
    ghost var calls: seq<GatewayCall>
    /** Jobs added to the campaign queue, in order. */
    ghost var jobs: seq<Job>
    /** Pacing delays waited by the worker, in milliseconds. */
    ghost var sleeps: seq<int>

    ghost function State(): Db
      reads this
    {
      Db(campaigns, tenants, contacts, rows, logs, sessions, automations, nodes, nextCampaignId, calls, jobs, sleeps)
    }

    constructor (db: Db)
      ensures State() == db
    {
      campaigns, tenants, contacts := db.campaigns, db.tenants, db.contacts;
      rows, logs, sessions := db.rows, db.logs, db.sessions;
      automations, nodes := db.automations, db.nodes;
      nextCampaignId := db.nextCampaignId;
      calls, jobs, sleeps := db.calls, db.jobs, db.sleeps;
    }
  }
}
