/**
 * The campaign routes (backend/src/routes/campaigns.js): creating a campaign
 * (one campaign per occurrence, each with its own queue of recipients), the
 * status transitions start / pause / resume / cancel, the calendar view and
 * the delivery report.
 */
module Campaigns {
  import opened Wrappers
  import opened Text
  import opened Calendar
  import opened Store
  import opened Schedules

  // ---------------------------------------------------------------------------
  // POST /api/campaigns
  // ---------------------------------------------------------------------------

  /** The body of `POST /api/campaigns`; `None` is a missing (or null) property. */
  datatype CreateRequest = CreateRequest(
    name: Option<string>,
    messageText: Option<string>,
    mediaType: Option<string>,
    mediaUrl: Option<string>,
    mediaCaption: Option<string>,
    delayMinSeconds: Option<int>,
    delayMaxSeconds: Option<int>,
    typingSimulation: Option<bool>,
    targetTags: Option<seq<string>>,
    sendStartHour: Option<int>,
    sendEndHour: Option<int>,
    sendOnWeekends: Option<bool>,
    scheduledAt: Option<Timestamp>,
    recurrenceType: Option<string>,
    recurrenceDays: Option<seq<int>>,
    recurrenceTimes: Option<seq<TimeOfDay>>,
    recurrenceEndDate: Option<Timestamp>)

  datatype CreateResponse =
    | Rejected(status: int, message: string)
    | Created(campaigns: seq<Campaign>)

  /** The pacing delays in seconds: at least the requested and the plan minimum, and a spread of five seconds or more. */
  function ClampDelays(requestedMin: Option<int>, tenantMin: Option<int>, requestedMax: Option<int>): (r: (int, int))
    ensures r.0 >= requestedMin.GetOr(10) && r.0 >= tenantMin.GetOr(10)
    ensures r.0 == requestedMin.GetOr(10) || r.0 == tenantMin.GetOr(10)
    ensures r.1 >= requestedMax.GetOr(30) && r.1 >= r.0 + 5
    ensures r.1 == requestedMax.GetOr(30) || r.1 == r.0 + 5
  {
    var delayMin := if requestedMin.GetOr(10) >= tenantMin.GetOr(10) then requestedMin.GetOr(10) else tenantMin.GetOr(10);
    var delayMax := if requestedMax.GetOr(30) >= delayMin + 5 then requestedMax.GetOr(30) else delayMin + 5;
    (delayMin, delayMax)
  }

  /** The three guards on the request body, with their messages. */
  function Validate(req: CreateRequest): (error: Option<string>)
    ensures error.None? <==> Truthy(req.name) && (Truthy(req.messageText) || Truthy(req.mediaUrl))
                             && (Truthy(req.mediaUrl) ==> Truthy(req.mediaCaption))
  {
    if !Truthy(req.name) then Some("Nome obrigat\U{00F3}rio")
    else if !Truthy(req.messageText) && !Truthy(req.mediaUrl) then Some("Informe texto ou m\U{00ED}dia")
    else if Truthy(req.mediaUrl) && !Truthy(req.mediaCaption) then Some("Imagem/v\U{00ED}deo precisa de legenda")
    else None
  }

  /** Whether a contact is a recipient: the tenant's, active, not opted out, and sharing a tag when tags are given. */
  predicate Targeted(c: Contact, tenantId: int, tags: seq<string>) {
    c.tenantId == tenantId && c.active && !c.optedOut
    && (tags != [] ==> exists t :: t in tags && t in c.tags)
  }

  /** The recipients, in table order. */
  function TargetContacts(contacts: seq<Contact>, tenantId: int, tags: seq<string>): (ts: seq<Contact>)
    ensures |ts| <= |contacts|
    ensures forall c :: c in ts <==> c in contacts && Targeted(c, tenantId, tags)
  {
    if contacts == [] then []
    else (if Targeted(contacts[0], tenantId, tags) then [contacts[0]] else []) + TargetContacts(contacts[1..], tenantId, tags)
  }

  /** The recurrence of the request, with its defaults. */
  function RecurrenceOf(req: CreateRequest): Recurrence {
    Recurrence(OrString(req.recurrenceType, "none"), req.recurrenceDays.GetOr([]),
               req.recurrenceTimes.GetOr([]), req.recurrenceEndDate)
  }

  /** `campBase`: the columns shared by every occurrence. */
  function CampaignBase(req: CreateRequest, tenant: Tenant, count: int): Campaign
    requires Truthy(req.name)
  {
    var delays := ClampDelays(req.delayMinSeconds, tenant.minDelaySeconds, req.delayMaxSeconds);
    var tags := req.targetTags.GetOr([]);
    Campaign(0, tenant.id, req.name.value, OrNull(req.messageText), OrString(req.mediaType, "none"),
             OrNull(req.mediaUrl), OrNull(req.mediaCaption), delays.0, delays.1,
             req.typingSimulation != Some(false), tags, tags == [],
             req.sendStartHour.GetOr(8), req.sendEndHour.GetOr(20), req.sendOnWeekends.GetOr(false),
             None, Draft, count, count, 0, 0)
  }

  /** The campaign inserted for one occurrence: scheduled when it has a date, a draft otherwise. */
  function Occurrence(base: Campaign, id: int, scheduledAt: Option<Timestamp>): Campaign {
    base.(id := id, scheduledAt := scheduledAt, status := if scheduledAt.Some? then Scheduled else Draft)
  }

  /** The queue of one occurrence: one queued row per recipient, in recipient order. */
  function QueuedRows(campaignId: int, tenantId: int, targets: seq<Contact>): (rows: seq<QueueRow>)
    ensures |rows| == |targets|
    ensures forall k :: 0 <= k < |targets| ==>
      rows[k] == QueueRow(campaignId, tenantId, targets[k].id, Queued, 0, None, None)
  {
    if targets == [] then []
    else QueuedRows(campaignId, tenantId, targets[..|targets| - 1])
         + [QueueRow(campaignId, tenantId, targets[|targets| - 1].id, Queued, 0, None, None)]
  }

  /**
   * What the store answers to the two inserts of one occurrence: the
   * campaign insert reports an error (the occurrence is skipped), or it
   * succeeds and the queue insert, whose error is not checked, fails or
   * succeeds.
   */
  datatype InsertResult = CampaignRefused | QueueRefused | Stored

  /** The occurrence `k` is skipped. */
  predicate Skipped(inserts: nat -> InsertResult, k: nat) {
    inserts(k) == CampaignRefused
  }

  /** The queue rows a successful campaign insert leads to: none when the queue insert fails. */
  function StoredQueue(campaignId: int, tenantId: int, targets: seq<Contact>, stored: bool): seq<QueueRow> {
    if stored then QueuedRows(campaignId, tenantId, targets) else []
  }

  /**
   * The insert loop from occurrence `k` on; `inserts(k)` is the store's answer
   * to the inserts of occurrence `k`.
   */
  function InsertFrom(db: Db, base: Campaign, schedules: seq<Option<Timestamp>>, k: nat,
                      targets: seq<Contact>, inserts: nat -> InsertResult): (r: (Db, seq<Campaign>))
    requires k <= |schedules|
    decreases |schedules| - k
  {
    if k == |schedules| then (db, [])
    else if Skipped(inserts, k) then InsertFrom(db, base, schedules, k + 1, targets, inserts)
    else
      var camp := Occurrence(base, db.nextCampaignId, schedules[k]);
      var db' := db.(campaigns := db.campaigns[camp.id := camp], nextCampaignId := db.nextCampaignId + 1,
                     rows := db.rows + StoredQueue(camp.id, base.tenantId, targets, inserts(k) == Stored));
      var rest := InsertFrom(db', base, schedules, k + 1, targets, inserts);
      (rest.0, [camp] + rest.1)
  }

  /** Helper: one successful insert of the loop, unfolded. */
  lemma InsertStep(db: Db, base: Campaign, schedules: seq<Option<Timestamp>>, k: nat,
                   targets: seq<Contact>, inserts: nat -> InsertResult)
    requires k < |schedules| && !Skipped(inserts, k)
    ensures var camp := Occurrence(base, db.nextCampaignId, schedules[k]);
      var db' := db.(campaigns := db.campaigns[camp.id := camp], nextCampaignId := db.nextCampaignId + 1,
                     rows := db.rows + StoredQueue(camp.id, base.tenantId, targets, inserts(k) == Stored));
      var rest := InsertFrom(db', base, schedules, k + 1, targets, inserts);
      InsertFrom(db, base, schedules, k, targets, inserts) == (rest.0, [camp] + rest.1)
  {
  }

  /**
   * `POST /api/campaigns` on the store `db` for `tenant`. `now` and
   * `monthLater` are the clock readings `buildSchedules` makes.
   */
  function CreateSpec(db: Db, tenant: Tenant, req: CreateRequest, now: Timestamp, monthLater: Timestamp,
                      inserts: nat -> InsertResult): (r: (Db, CreateResponse))
    ensures r.1.Rejected? ==> r.0 == db
  {
    match Validate(req)
    case Some(error) => (db, Rejected(400, error))
    case None =>
      var targets := TargetContacts(db.contacts, tenant.id, req.targetTags.GetOr([]));
      if targets == [] then (db, Rejected(400, "Nenhum contato encontrado para essa segmenta\U{00E7}\U{00E3}o"))
      else
        var base := CampaignBase(req, tenant, |targets|);
        var schedules := ScheduledDates(req.scheduledAt, RecurrenceOf(req), now, monthLater);
        var inserted := InsertFrom(db, base, schedules, 0, targets, inserts);
        (inserted.0, Created(inserted.1))
  }

  /** The inserts of one occurrence: the campaign row, then its queue unless that insert fails. */
  method Insert(s: Store, camp: Campaign, targets: seq<Contact>, queueStored: bool)
    requires camp.id == s.nextCampaignId
    modifies s
    ensures s.State() == old(s.State()).(campaigns := old(s.campaigns)[camp.id := camp],
                                         nextCampaignId := old(s.nextCampaignId) + 1,
                                         rows := old(s.rows) + StoredQueue(camp.id, camp.tenantId, targets, queueStored))
  {
    s.campaigns := s.campaigns[camp.id := camp];
    s.nextCampaignId := s.nextCampaignId + 1;
    if queueStored {
      s.rows := s.rows + QueuedRows(camp.id, camp.tenantId, targets);
    } else {
      assert s.rows + [] == s.rows;
    }
  }

  /** The route handler: validation, recipient count, occurrences, then one insert per occurrence. */
  method Create(s: Store, tenant: Tenant, req: CreateRequest, now: Timestamp, monthLater: Timestamp,
                inserts: nat -> InsertResult) returns (response: CreateResponse)
    modifies s
    ensures (s.State(), response) == CreateSpec(old(s.State()), tenant, req, now, monthLater, inserts)
  {
    var error := Validate(req);
    if error.Some? {
      return Rejected(400, error.value);
    }
    var targets := TargetContacts(s.contacts, tenant.id, req.targetTags.GetOr([]));
    if |targets| == 0 {
      return Rejected(400, "Nenhum contato encontrado para essa segmenta\U{00E7}\U{00E3}o");
    }
    var base := CampaignBase(req, tenant, |targets|);
    var schedules := BuildSchedules(req.scheduledAt, RecurrenceOf(req), now, monthLater);
    ghost var db0 := s.State();
    var created := InsertAll(s, base, schedules, targets, inserts);
    assert CreateSpec(db0, tenant, req, now, monthLater, inserts) == (s.State(), Created(created));
    return Created(created);
  }

  /** The insert loop of the handler: one insert per occurrence whose insert does not fail. */
  method InsertAll(s: Store, base: Campaign, schedules: seq<Option<Timestamp>>, targets: seq<Contact>,
                   inserts: nat -> InsertResult) returns (created: seq<Campaign>)
    modifies s
    ensures (s.State(), created) == InsertFrom(old(s.State()), base, schedules, 0, targets, inserts)
  {
    ghost var final := InsertFrom(s.State(), base, schedules, 0, targets, inserts);
    created := [];
    assert created + final.1 == final.1;
    var k := 0;
    while k < |schedules|
      invariant 0 <= k <= |schedules|
      invariant var r := InsertFrom(s.State(), base, schedules, k, targets, inserts);
        final == (r.0, created + r.1)
      decreases |schedules| - k
    {
      if !Skipped(inserts, k) {
        var camp := Occurrence(base, s.nextCampaignId, schedules[k]);
        InsertStep(s.State(), base, schedules, k, targets, inserts);
        Insert(s, camp, targets, inserts(k) == Stored);
        Regroup(created, [camp], InsertFrom(s.State(), base, schedules, k + 1, targets, inserts).1);
        created := created + [camp];
      }
      k := k + 1;
    }
    assert created + [] == created;
  }

  // ---------------------------------------------------------------------------
  // Properties of campaign creation
  // ---------------------------------------------------------------------------

  /** The pacing spread is at least five seconds. */
  lemma DelaySpread(requestedMin: Option<int>, tenantMin: Option<int>, requestedMax: Option<int>)
    ensures var d := ClampDelays(requestedMin, tenantMin, requestedMax); d.1 - d.0 >= 5
  {
  }

  /** A recipient list is a list of the tenant's reachable contacts, and each is one. */
  lemma TargetsAreReachable(contacts: seq<Contact>, tenantId: int, tags: seq<string>, c: Contact)
    requires c in TargetContacts(contacts, tenantId, tags)
    ensures c.tenantId == tenantId && c.active && !c.optedOut
  {
  }

  /** Every campaign the loop inserts is one occurrence of the base, in occurrence order, with fresh ascending ids. */
  lemma {:induction false} InsertedCampaigns(db: Db, base: Campaign, schedules: seq<Option<Timestamp>>, k: nat,
                                             targets: seq<Contact>, inserts: nat -> InsertResult)
    requires k <= |schedules|
    ensures var r := InsertFrom(db, base, schedules, k, targets, inserts);
      && |r.1| <= |schedules| - k
      && r.0.nextCampaignId == db.nextCampaignId + |r.1|
      && r.0.contacts == db.contacts && r.0.tenants == db.tenants && r.0.logs == db.logs
      && r.0.sessions == db.sessions && r.0.calls == db.calls && r.0.jobs == db.jobs && r.0.sleeps == db.sleeps
      && (forall i :: 0 <= i < |r.1| ==> r.1[i].id == db.nextCampaignId + i)
      && (forall c :: c in r.1 ==> exists j :: k <= j < |schedules| && !Skipped(inserts, j) && c == Occurrence(base, c.id, schedules[j]))
    decreases |schedules| - k
  {
    if k < |schedules| {
      if Skipped(inserts, k) {
        InsertedCampaigns(db, base, schedules, k + 1, targets, inserts);
      } else {
        var camp := Occurrence(base, db.nextCampaignId, schedules[k]);
        var db' := db.(campaigns := db.campaigns[camp.id := camp], nextCampaignId := db.nextCampaignId + 1,
                       rows := db.rows + StoredQueue(camp.id, base.tenantId, targets, inserts(k) == Stored));
        InsertedCampaigns(db', base, schedules, k + 1, targets, inserts);
      }
    }
  }

  /** Without insert errors, every occurrence becomes a campaign, in order. */
  lemma {:induction false} AllInserted(db: Db, base: Campaign, schedules: seq<Option<Timestamp>>, k: nat,
                                       targets: seq<Contact>, inserts: nat -> InsertResult)
    requires k <= |schedules|
    requires forall j :: k <= j < |schedules| ==> !Skipped(inserts, j)
    ensures var r := InsertFrom(db, base, schedules, k, targets, inserts);
      |r.1| == |schedules| - k
      && forall i :: 0 <= i < |r.1| ==> r.1[i] == Occurrence(base, db.nextCampaignId + i, schedules[k + i])
    decreases |schedules| - k
  {
    if k < |schedules| {
      var camp := Occurrence(base, db.nextCampaignId, schedules[k]);
      var db' := db.(campaigns := db.campaigns[camp.id := camp], nextCampaignId := db.nextCampaignId + 1,
                     rows := db.rows + StoredQueue(camp.id, base.tenantId, targets, inserts(k) == Stored));
      AllInserted(db', base, schedules, k + 1, targets, inserts);
    }
  }

  /** The rows the loop adds: for each inserted campaign, in order, one queued row per recipient. */
  function QueuesOf(campaigns: seq<Campaign>, tenantId: int, targets: seq<Contact>): seq<QueueRow> {
    if campaigns == [] then [] else QueuedRows(campaigns[0].id, tenantId, targets) + QueuesOf(campaigns[1..], tenantId, targets)
  }

  /** When no queue insert fails, the queue gains, for each inserted campaign in order, one queued row per recipient. */
  lemma {:induction false} InsertedQueues(db: Db, base: Campaign, schedules: seq<Option<Timestamp>>, k: nat,
                                          targets: seq<Contact>, inserts: nat -> InsertResult)
    requires k <= |schedules|
    requires forall j :: k <= j < |schedules| ==> inserts(j) != QueueRefused
    ensures var r := InsertFrom(db, base, schedules, k, targets, inserts);
      r.0.rows == db.rows + QueuesOf(r.1, base.tenantId, targets)
    decreases |schedules| - k
  {
    if k < |schedules| {
      if Skipped(inserts, k) {
        InsertedQueues(db, base, schedules, k + 1, targets, inserts);
      } else {
        var camp := Occurrence(base, db.nextCampaignId, schedules[k]);
        var q := QueuedRows(camp.id, base.tenantId, targets);
        var db' := db.(campaigns := db.campaigns[camp.id := camp], nextCampaignId := db.nextCampaignId + 1,
                       rows := db.rows + q);
        assert inserts(k) == Stored;
        assert StoredQueue(camp.id, base.tenantId, targets, true) == q;
        InsertStep(db, base, schedules, k, targets, inserts);
        InsertedQueues(db', base, schedules, k + 1, targets, inserts);
        var r := InsertFrom(db', base, schedules, k + 1, targets, inserts);
        assert ([camp] + r.1)[1..] == r.1;
        assert QueuesOf([camp] + r.1, base.tenantId, targets) == q + QueuesOf(r.1, base.tenantId, targets);
        assert db.rows + q + QueuesOf(r.1, base.tenantId, targets) == db.rows + (q + QueuesOf(r.1, base.tenantId, targets));
      }
    }
  }

  /**
   * Whatever the queue inserts answer, the queue keeps its rows and gains
   * only queued rows of the campaigns the loop inserts.
   */
  lemma {:induction false} QueueGrowth(db: Db, base: Campaign, schedules: seq<Option<Timestamp>>, k: nat,
                                       targets: seq<Contact>, inserts: nat -> InsertResult)
    requires k <= |schedules|
    ensures var r := InsertFrom(db, base, schedules, k, targets, inserts);
      && |db.rows| <= |r.0.rows| && r.0.rows[..|db.rows|] == db.rows
      && forall j :: |db.rows| <= j < |r.0.rows| ==>
           r.0.rows[j].status == Queued && db.nextCampaignId <= r.0.rows[j].campaignId < r.0.nextCampaignId
    decreases |schedules| - k
  {
    if k < |schedules| {
      if Skipped(inserts, k) {
        QueueGrowth(db, base, schedules, k + 1, targets, inserts);
      } else {
        var camp := Occurrence(base, db.nextCampaignId, schedules[k]);
        var q := StoredQueue(camp.id, base.tenantId, targets, inserts(k) == Stored);
        var db' := db.(campaigns := db.campaigns[camp.id := camp], nextCampaignId := db.nextCampaignId + 1,
                       rows := db.rows + q);
        QueueGrowth(db', base, schedules, k + 1, targets, inserts);
        InsertedCampaigns(db', base, schedules, k + 1, targets, inserts);
        var r := InsertFrom(db', base, schedules, k + 1, targets, inserts);
        assert InsertFrom(db, base, schedules, k, targets, inserts).0 == r.0;
        QueueGrowthStep(db.rows, q, r.0.rows, db.nextCampaignId, r.0.nextCampaignId);
      }
    } else {
      assert db.rows[..|db.rows|] == db.rows;
    }
  }

  /** Helper: one batch of queued rows of campaign `lo` ahead of rows of later campaigns. */
  lemma QueueGrowthStep(rows: seq<QueueRow>, q: seq<QueueRow>, after: seq<QueueRow>, lo: int, hi: int)
    requires lo < hi
    requires forall j :: 0 <= j < |q| ==> q[j].status == Queued && q[j].campaignId == lo
    requires |rows + q| <= |after| && after[..|rows + q|] == rows + q
    requires forall j :: |rows + q| <= j < |after| ==> after[j].status == Queued && lo + 1 <= after[j].campaignId < hi
    ensures |rows| <= |after| && after[..|rows|] == rows
    ensures forall j :: |rows| <= j < |after| ==> after[j].status == Queued && lo <= after[j].campaignId < hi
  {
    assert after[..|rows|] == after[..|rows + q|][..|rows|];
    forall j | |rows| <= j < |rows + q|
      ensures after[j].status == Queued && after[j].campaignId == lo
    {
      assert after[j] == after[..|rows + q|][j] == q[j - |rows|];
    }
  }

  /** The store's campaign ids are below the next id it hands out. */
  predicate FreshIds(db: Db) {
    forall id :: id in db.campaigns ==> id < db.nextCampaignId
  }

  /**
   * With fresh ids, the loop keeps every stored campaign as it was, stores
   * every campaign it reports as created, and keeps the ids fresh.
   */
  lemma {:induction false} InsertedStored(db: Db, base: Campaign, schedules: seq<Option<Timestamp>>, k: nat,
                                          targets: seq<Contact>, inserts: nat -> InsertResult)
    requires k <= |schedules| && FreshIds(db)
    ensures var r := InsertFrom(db, base, schedules, k, targets, inserts);
      && FreshIds(r.0)
      && (forall id :: id in db.campaigns ==> id in r.0.campaigns && r.0.campaigns[id] == db.campaigns[id])
      && (forall c :: c in r.1 ==> c.id in r.0.campaigns && r.0.campaigns[c.id] == c)
    decreases |schedules| - k
  {
    if k < |schedules| {
      if Skipped(inserts, k) {
        InsertedStored(db, base, schedules, k + 1, targets, inserts);
      } else {
        var camp := Occurrence(base, db.nextCampaignId, schedules[k]);
        var db' := db.(campaigns := db.campaigns[camp.id := camp], nextCampaignId := db.nextCampaignId + 1,
                       rows := db.rows + StoredQueue(camp.id, base.tenantId, targets, inserts(k) == Stored));
        InsertedStored(db', base, schedules, k + 1, targets, inserts);
        var rest := InsertFrom(db', base, schedules, k + 1, targets, inserts);
        assert InsertFrom(db, base, schedules, k, targets, inserts) == (rest.0, [camp] + rest.1);
      }
    }
  }

  /**
   * A created campaign is 'scheduled' exactly when it has a date and 'draft'
   * otherwise, counts all its recipients as pending, and carries the clamped delays.
   */
  lemma CreatedCampaignShape(db: Db, tenant: Tenant, req: CreateRequest, now: Timestamp, monthLater: Timestamp,
                             inserts: nat -> InsertResult, c: Campaign)
    requires CreateSpec(db, tenant, req, now, monthLater, inserts).1.Created?
    requires c in CreateSpec(db, tenant, req, now, monthLater, inserts).1.campaigns
    ensures c.status == Scheduled <==> c.scheduledAt.Some?
    ensures c.status == Draft <==> c.scheduledAt.None?
    ensures c.scheduledAt in ScheduledDates(req.scheduledAt, RecurrenceOf(req), now, monthLater)
    ensures var targets := TargetContacts(db.contacts, tenant.id, req.targetTags.GetOr([]));
      c.contactsTotal == |targets| && c.contactsPending == |targets| && c.contactsTotal > 0
    ensures (c.delayMinSeconds, c.delayMaxSeconds) == ClampDelays(req.delayMinSeconds, tenant.minDelaySeconds, req.delayMaxSeconds)
    ensures c.tenantId == tenant.id && c.name == req.name.value
  {
    var targets := TargetContacts(db.contacts, tenant.id, req.targetTags.GetOr([]));
    var base := CampaignBase(req, tenant, |targets|);
    var schedules := ScheduledDates(req.scheduledAt, RecurrenceOf(req), now, monthLater);
    InsertedCampaigns(db, base, schedules, 0, targets, inserts);
  }

  /**
   * A created campaign's queue is one queued row per recipient when its queue
   * insert succeeds; whatever the queue inserts answer, the queue gains only
   * queued rows of the created campaigns.
   */
  lemma CreatedQueues(db: Db, tenant: Tenant, req: CreateRequest, now: Timestamp, monthLater: Timestamp,
                      inserts: nat -> InsertResult)
    requires CreateSpec(db, tenant, req, now, monthLater, inserts).1.Created?
    ensures var r := CreateSpec(db, tenant, req, now, monthLater, inserts);
      (forall j: nat :: inserts(j) != QueueRefused) ==>
        r.0.rows == db.rows + QueuesOf(r.1.campaigns, tenant.id, TargetContacts(db.contacts, tenant.id, req.targetTags.GetOr([])))
    ensures var r := CreateSpec(db, tenant, req, now, monthLater, inserts);
      && |db.rows| <= |r.0.rows| && r.0.rows[..|db.rows|] == db.rows
      && forall j :: |db.rows| <= j < |r.0.rows| ==>
           r.0.rows[j].status == Queued && db.nextCampaignId <= r.0.rows[j].campaignId < r.0.nextCampaignId
  {
    var targets := TargetContacts(db.contacts, tenant.id, req.targetTags.GetOr([]));
    var base := CampaignBase(req, tenant, |targets|);
    var schedules := ScheduledDates(req.scheduledAt, RecurrenceOf(req), now, monthLater);
    if forall j: nat :: inserts(j) != QueueRefused {
      InsertedQueues(db, base, schedules, 0, targets, inserts);
    }
    QueueGrowth(db, base, schedules, 0, targets, inserts);
  }

  /** A request without a date or recurrence creates one draft. */
  lemma UnscheduledIsOneDraft(db: Db, tenant: Tenant, req: CreateRequest, now: Timestamp, monthLater: Timestamp,
                              inserts: nat -> InsertResult)
    requires CreateSpec(db, tenant, req, now, monthLater, inserts).1.Created?
    requires req.scheduledAt.None? && !Truthy(req.recurrenceType)
    requires !Skipped(inserts, 0)
    ensures var cs := CreateSpec(db, tenant, req, now, monthLater, inserts).1.campaigns;
      |cs| == 1 && cs[0].status == Draft && cs[0].scheduledAt.None? && cs[0].id == db.nextCampaignId
  {
    var targets := TargetContacts(db.contacts, tenant.id, req.targetTags.GetOr([]));
    var base := CampaignBase(req, tenant, |targets|);
    assert ScheduledDates(req.scheduledAt, RecurrenceOf(req), now, monthLater) == [None];
    AllInserted(db, base, [None], 0, targets, inserts);
  }

  /** The request is refused, and the store untouched, exactly on a failed guard or when no contact is targeted. */
  lemma CreateRefusals(db: Db, tenant: Tenant, req: CreateRequest, now: Timestamp, monthLater: Timestamp,
                       inserts: nat -> InsertResult)
    ensures var r := CreateSpec(db, tenant, req, now, monthLater, inserts);
      r.1.Rejected? <==> Validate(req).Some? || TargetContacts(db.contacts, tenant.id, req.targetTags.GetOr([])) == []
    ensures CreateSpec(db, tenant, req, now, monthLater, inserts).1.Rejected? ==>
      CreateSpec(db, tenant, req, now, monthLater, inserts).1.status == 400
  {
  }

  // ---------------------------------------------------------------------------
  // start / pause / resume / delete
  // ---------------------------------------------------------------------------

  datatype Reply = Accepted | Refused(status: int, message: string)

  /** The tenant's campaign with this id, as `.eq('id', id).eq('tenant_id', tenant.id).single()` finds it. */
  function FindCampaign(db: Db, id: int, tenantId: int): (c: Option<Campaign>)
    ensures c.Some? <==> id in db.campaigns && db.campaigns[id].tenantId == tenantId
    ensures c.Some? ==> c.value == db.campaigns[id]
  {
    if id in db.campaigns && db.campaigns[id].tenantId == tenantId then Some(db.campaigns[id]) else None
  }

  function StatusName(st: CampaignStatus): string {
    match st
    case Draft => "draft"
    case Scheduled => "scheduled"
    case Running => "running"
    case Paused => "paused"
    case Done => "done"
    case Cancelled => "cancelled"
  }

  /** The statuses a campaign can be started from. */
  predicate Startable(st: CampaignStatus) {
    st == Draft || st == Paused || st == Scheduled
  }

  /** `POST /api/campaigns/:id/start`: a priority job, and the campaign running. */
  function StartSpec(db: Db, tenant: Tenant, id: int): (r: (Db, Reply))
    ensures r.1.Accepted? <==>
      tenant.waStatus == "connected" && FindCampaign(db, id, tenant.id).Some? && Startable(db.campaigns[id].status)
    ensures r.1.Refused? ==> r.0 == db
    ensures r.1.Accepted? ==>
      r.0 == db.(campaigns := db.campaigns[id := db.campaigns[id].(status := Running)],
                 jobs := db.jobs + [Job(id, tenant.id, 0, Some(1))])
  {
    if tenant.waStatus != "connected" then (db, Refused(400, "WhatsApp n\U{00E3}o est\U{00E1} conectado"))
    else match FindCampaign(db, id, tenant.id)
      case None => (db, Refused(404, "Campanha n\U{00E3}o encontrada"))
      case Some(camp) =>
        if !Startable(camp.status) then
          (db, Refused(400, "N\U{00E3}o \U{00E9} poss\U{00ED}vel iniciar campanha com status \"" + StatusName(camp.status) + "\""))
        else
          (db.(campaigns := db.campaigns[id := camp.(status := Running)], jobs := db.jobs + [Job(id, tenant.id, 0, Some(1))]),
           Accepted)
  }

  /** `POST /api/campaigns/:id/pause`: whatever the current status, the tenant's campaign becomes paused. */
  function PauseSpec(db: Db, tenant: Tenant, id: int): (r: Db)
    ensures FindCampaign(db, id, tenant.id).None? ==> r == db
    ensures FindCampaign(db, id, tenant.id).Some? ==>
      r == db.(campaigns := db.campaigns[id := db.campaigns[id].(status := Paused)])
  {
    match FindCampaign(db, id, tenant.id)
    case None => db
    case Some(camp) => db.(campaigns := db.campaigns[id := camp.(status := Paused)])
  }

  /** `POST /api/campaigns/:id/resume`: only a paused campaign is resumed, with a new job. */
  function ResumeSpec(db: Db, tenant: Tenant, id: int): (r: (Db, Reply))
    ensures r.1.Accepted? <==> FindCampaign(db, id, tenant.id).Some? && db.campaigns[id].status == Paused
    ensures r.1.Refused? ==> r.0 == db && r.1.status == 400
    ensures r.1.Accepted? ==>
      r.0 == db.(campaigns := db.campaigns[id := db.campaigns[id].(status := Running)],
                 jobs := db.jobs + [Job(id, tenant.id, 0, None)])
  {
    match FindCampaign(db, id, tenant.id)
    case Some(camp) =>
      if camp.status == Paused then
        (db.(campaigns := db.campaigns[id := camp.(status := Running)], jobs := db.jobs + [Job(id, tenant.id, 0, None)]),
         Accepted)
      else (db, Refused(400, "Campanha n\U{00E3}o est\U{00E1} pausada"))
    case None => (db, Refused(400, "Campanha n\U{00E3}o est\U{00E1} pausada"))
  }

  /** `DELETE /api/campaigns/:id`: whatever the current status, the tenant's campaign becomes cancelled. */
  function CancelSpec(db: Db, tenant: Tenant, id: int): (r: Db)
    ensures FindCampaign(db, id, tenant.id).None? ==> r == db
    ensures FindCampaign(db, id, tenant.id).Some? ==>
      r == db.(campaigns := db.campaigns[id := db.campaigns[id].(status := Cancelled)])
  {
    match FindCampaign(db, id, tenant.id)
    case None => db
    case Some(camp) => db.(campaigns := db.campaigns[id := camp.(status := Cancelled)])
  }

  method Start(s: Store, tenant: Tenant, id: int) returns (reply: Reply)
    modifies s
    ensures (s.State(), reply) == StartSpec(old(s.State()), tenant, id)
  {
    if tenant.waStatus != "connected" {
      return Refused(400, "WhatsApp n\U{00E3}o est\U{00E1} conectado");
    }
    if !(id in s.campaigns && s.campaigns[id].tenantId == tenant.id) {
      return Refused(404, "Campanha n\U{00E3}o encontrada");
    }
    var camp := s.campaigns[id];
    if !(camp.status == Draft || camp.status == Paused || camp.status == Scheduled) {
      return Refused(400, "N\U{00E3}o \U{00E9} poss\U{00ED}vel iniciar campanha com status \"" + StatusName(camp.status) + "\"");
    }
    s.jobs := s.jobs + [Job(id, tenant.id, 0, Some(1))];
    s.campaigns := s.campaigns[id := camp.(status := Running)];
    return Accepted;
  }

  method Pause(s: Store, tenant: Tenant, id: int)
    modifies s
    ensures s.State() == PauseSpec(old(s.State()), tenant, id)
  {
    if id in s.campaigns && s.campaigns[id].tenantId == tenant.id {
      s.campaigns := s.campaigns[id := s.campaigns[id].(status := Paused)];
    }
  }

  method Resume(s: Store, tenant: Tenant, id: int) returns (reply: Reply)
    modifies s
    ensures (s.State(), reply) == ResumeSpec(old(s.State()), tenant, id)
  {
    if !(id in s.campaigns && s.campaigns[id].tenantId == tenant.id && s.campaigns[id].status == Paused) {
      return Refused(400, "Campanha n\U{00E3}o est\U{00E1} pausada");
    }
    s.jobs := s.jobs + [Job(id, tenant.id, 0, None)];
    s.campaigns := s.campaigns[id := s.campaigns[id].(status := Running)];
    return Accepted;
  }

  method Cancel(s: Store, tenant: Tenant, id: int)
    modifies s
    ensures s.State() == CancelSpec(old(s.State()), tenant, id)
  {
    if id in s.campaigns && s.campaigns[id].tenantId == tenant.id {
      s.campaigns := s.campaigns[id := s.campaigns[id].(status := Cancelled)];
    }
  }

  /** Pausing or cancelling overrides any status, even a finished campaign's. */
  lemma PauseOverridesDone(db: Db, tenant: Tenant, id: int)
    requires FindCampaign(db, id, tenant.id).Some? && db.campaigns[id].status == Done
    ensures PauseSpec(db, tenant, id).campaigns[id].status == Paused
    ensures CancelSpec(db, tenant, id).campaigns[id].status == Cancelled
  {
  }

  /** A cancelled or running campaign cannot be resumed; a cancelled or done one cannot be started. */
  lemma TerminalStatusesStay(db: Db, tenant: Tenant, id: int)
    requires FindCampaign(db, id, tenant.id).Some?
    requires db.campaigns[id].status == Cancelled || db.campaigns[id].status == Done
    ensures StartSpec(db, tenant, id).0 == db && ResumeSpec(db, tenant, id).0 == db
  {
  }

  // ---------------------------------------------------------------------------
  // GET /api/campaigns/calendar
  // ---------------------------------------------------------------------------

  /**
   * The day of the month a campaign is shown on (`new Date(scheduled_at).getDate()`).
   * The query's range filter on `scheduled_at` drops campaigns without one, so
   * they never reach the calendar; the model sends them to minute 0 only to
   * keep the function total.
   */
  function CalendarDay(c: Campaign): (d: int)
    ensures 1 <= d <= 31
  {
    DayOfMonth(DayOf(c.scheduledAt.GetOr(0)))
  }

  /** The campaigns shown on day `d`, in query order. */
  function OnDay(cs: seq<Campaign>, d: int): (r: seq<Campaign>)
    ensures |r| <= |cs|
    ensures forall c :: c in r <==> c in cs && CalendarDay(c) == d
  {
    if cs == [] then [] else OnDay(cs[..|cs| - 1], d) + (if CalendarDay(cs[|cs| - 1]) == d then [cs[|cs| - 1]] else [])
  }

  /** The calendar as the grouping loop builds it, campaign by campaign. */
  function Grouped(cs: seq<Campaign>): map<int, seq<Campaign>> {
    if cs == [] then map[]
    else
      var calendar := Grouped(cs[..|cs| - 1]);
      var c := cs[|cs| - 1];
      calendar[CalendarDay(c) := (if CalendarDay(c) in calendar then calendar[CalendarDay(c)] else []) + [c]]
  }

  /** The grouping loop of `GET /api/campaigns/calendar` over the query result `cs`. */
  method GroupByDay(cs: seq<Campaign>) returns (calendar: map<int, seq<Campaign>>)
    ensures calendar == Grouped(cs)
  {
    calendar := map[];
    var i := 0;
    while i < |cs|
      invariant 0 <= i <= |cs|
      invariant calendar == Grouped(cs[..i])
    {
      var day := CalendarDay(cs[i]);
      if day !in calendar {
        calendar := calendar[day := []];
      }
      calendar := calendar[day := calendar[day] + [cs[i]]];
      assert cs[..i + 1][..i] == cs[..i];
      i := i + 1;
    }
    assert cs[..|cs|] == cs;
  }

  /** The calendar has a day exactly when some campaign falls on it. */
  lemma {:induction false} GroupedDays(cs: seq<Campaign>)
    ensures forall d :: d in Grouped(cs) <==> exists c :: c in cs && CalendarDay(c) == d
  {
    if cs != [] {
      var init := cs[..|cs| - 1];
      GroupedDays(init);
      var c := cs[|cs| - 1];
      assert cs == init + [c];
      forall d ensures d in Grouped(cs) <==> exists c' :: c' in cs && CalendarDay(c') == d {
        if d in Grouped(init) {
          var c' :| c' in init && CalendarDay(c') == d;
          assert c' in cs;
        }
        if exists c' :: c' in cs && CalendarDay(c') == d {
          var c' :| c' in cs && CalendarDay(c') == d;
          if c' != c {
            assert c' in init;
          }
        }
      }
    }
  }

  /** Helper: no campaign on day `d`, nothing listed on it. */
  lemma {:induction false} OnDayEmpty(cs: seq<Campaign>, d: int)
    requires forall c :: c in cs ==> CalendarDay(c) != d
    ensures OnDay(cs, d) == []
  {
    if cs != [] {
      OnDayEmpty(cs[..|cs| - 1], d);
    }
  }

  /** Each day of the calendar lists the campaigns falling on it, in query order. */
  lemma {:induction false} GroupedIsOnDay(cs: seq<Campaign>)
    ensures forall d :: d in Grouped(cs) ==> Grouped(cs)[d] == OnDay(cs, d)
  {
    if cs != [] {
      var init := cs[..|cs| - 1];
      GroupedIsOnDay(init);
      GroupedDays(init);
      var c := cs[|cs| - 1];
      forall d | d in Grouped(cs) ensures Grouped(cs)[d] == OnDay(cs, d) {
        if d != CalendarDay(c) {
          assert OnDay(cs, d) == OnDay(init, d) + [];
        } else if d !in Grouped(init) {
          OnDayEmpty(init, d);
        }
      }
    }
  }

  /** Each campaign is listed on exactly one day: its own. */
  lemma OneBucketEach(cs: seq<Campaign>, c: Campaign, d: int)
    requires c in cs
    ensures CalendarDay(c) in Grouped(cs) && c in Grouped(cs)[CalendarDay(c)]
    ensures d != CalendarDay(c) && d in Grouped(cs) ==> c !in Grouped(cs)[d]
  {
    GroupedDays(cs);
    GroupedIsOnDay(cs);
  }

  /** Ascending by `scheduled_at`, with dated campaigns. */
  predicate AscendingBySchedule(cs: seq<Campaign>) {
    forall i, j :: 0 <= i < j < |cs| ==> cs[i].scheduledAt.GetOr(0) <= cs[j].scheduledAt.GetOr(0)
  }

  /** The order of the query (ascending `scheduled_at`) is kept within each day. */
  lemma {:induction false} OnDayKeepsOrder(cs: seq<Campaign>, d: int)
    requires AscendingBySchedule(cs)
    ensures AscendingBySchedule(OnDay(cs, d))
  {
    if cs != [] {
      var init := cs[..|cs| - 1];
      var last := cs[|cs| - 1];
      assert AscendingBySchedule(init);
      OnDayKeepsOrder(init, d);
      var r := OnDay(init, d);
      forall c | c in r ensures c.scheduledAt.GetOr(0) <= last.scheduledAt.GetOr(0) {
        var i :| 0 <= i < |init| && init[i] == c;
      }
    }
  }

  // ---------------------------------------------------------------------------
  // GET /api/campaigns/:id/report
  // ---------------------------------------------------------------------------

  datatype Summary = Summary(total: int, sent: nat, delivered: nat, read: nat, failed: nat, pending: int)

  datatype ReportReply = NotFound | Report(campaign: Campaign, summary: Summary)

  /** How many log entries have the given status. */
  function CountStatus(logs: seq<MessageLog>, st: RowStatus): (n: nat)
    ensures n <= |logs|
    ensures n == multiset(Statuses(logs))[st]
  {
    if logs == [] then 0
    else
      assert Statuses(logs) == [logs[0].status] + Statuses(logs[1..]);
      (if logs[0].status == st then 1 else 0) + CountStatus(logs[1..], st)
  }

  /** The status of each log entry, in log order. */
  function Statuses(logs: seq<MessageLog>): seq<RowStatus> {
    seq(|logs|, k requires 0 <= k < |logs| => logs[k].status)
  }

  /** The campaign and status of each log entry, in log order. */
  function CampaignStatuses(logs: seq<MessageLog>): seq<(int, RowStatus)> {
    seq(|logs|, k requires 0 <= k < |logs| => (logs[k].campaignId, logs[k].status))
  }

  /** The log entries of one campaign: each as often as in the logs, in log order. */
  function LogsOf(logs: seq<MessageLog>, campaignId: int): (r: seq<MessageLog>)
    ensures forall l :: l in r <==> l in logs && l.campaignId == campaignId
  {
    if logs == [] then []
    else (if logs[0].campaignId == campaignId then [logs[0]] else []) + LogsOf(logs[1..], campaignId)
  }

  /** The log entries of one campaign are each as often as in the logs. */
  lemma {:induction false} LogsOfMultiset(logs: seq<MessageLog>, campaignId: int)
    ensures forall l :: multiset(LogsOf(logs, campaignId))[l] == if l.campaignId == campaignId then multiset(logs)[l] else 0
  {
    if logs != [] {
      LogsOfMultiset(logs[1..], campaignId);
      assert logs == [logs[0]] + logs[1..];
    }
  }

  /** The entries keep their log order: the entries of two stretches of log are those of the first, then of the second. */
  lemma {:induction false} LogsOfAppend(a: seq<MessageLog>, b: seq<MessageLog>, campaignId: int)
    ensures LogsOf(a + b, campaignId) == LogsOf(a, campaignId) + LogsOf(b, campaignId)
  {
    if a == [] {
      assert a + b == b;
    } else {
      LogsOfAppend(a[1..], b, campaignId);
      assert (a + b)[0] == a[0] && (a + b)[1..] == a[1..] + b;
    }
  }

  /** A status count over a campaign's logs is the number of its log entries with that status. */
  lemma {:induction false} CountOfCampaign(logs: seq<MessageLog>, campaignId: int, st: RowStatus)
    ensures CountStatus(LogsOf(logs, campaignId), st) == multiset(CampaignStatuses(logs))[(campaignId, st)]
  {
    if logs != [] {
      var rest := LogsOf(logs[1..], campaignId);
      CountOfCampaign(logs[1..], campaignId, st);
      TallyCons(logs, (campaignId, st));
      if logs[0].campaignId == campaignId {
        var r := [logs[0]] + rest;
        assert LogsOf(logs, campaignId) == r;
        assert r[0] == logs[0] && r[1..] == rest;
        assert CountStatus(r, st) == (if logs[0].status == st then 1 else 0) + CountStatus(rest, st);
      } else {
        assert LogsOf(logs, campaignId) == rest;
      }
    }
  }

  /** Helper: the tally of a log is its first entry's plus the rest's. */
  lemma TallyCons(logs: seq<MessageLog>, key: (int, RowStatus))
    requires logs != []
    ensures multiset(CampaignStatuses(logs))[key]
         == (if (logs[0].campaignId, logs[0].status) == key then 1 else 0) + multiset(CampaignStatuses(logs[1..]))[key]
  {
    assert CampaignStatuses(logs) == [(logs[0].campaignId, logs[0].status)] + CampaignStatuses(logs[1..]);
  }

  /**
   * `GET /api/campaigns/:id/report`: 404 unless the campaign is the tenant's;
   * otherwise each status count is the number of the campaign's log entries
   * with that status.
   */
  function ReportSpec(db: Db, tenantId: int, id: int): (r: ReportReply)
    ensures r.NotFound? <==> FindCampaign(db, id, tenantId).None?
    ensures r.Report? ==> r.summary.total == r.campaign.contactsTotal && r.summary.pending == r.campaign.contactsPending
    ensures r.Report? ==>
      var tally := multiset(CampaignStatuses(db.logs));
      && r.summary.sent == tally[(id, Sent)] && r.summary.delivered == tally[(id, Delivered)]
      && r.summary.read == tally[(id, Read)] && r.summary.failed == tally[(id, Failed)]
  {
    match FindCampaign(db, id, tenantId)
    case None => NotFound
    case Some(camp) =>
      var logs := LogsOf(db.logs, id);
      CountOfCampaign(db.logs, id, Sent);
      CountOfCampaign(db.logs, id, Delivered);
      CountOfCampaign(db.logs, id, Read);
      CountOfCampaign(db.logs, id, Failed);
      Report(camp, Summary(camp.contactsTotal, CountStatus(logs, Sent), CountStatus(logs, Delivered),
                           CountStatus(logs, Read), CountStatus(logs, Failed), camp.contactsPending))
  }

  /** The four counts partition the log entries whose status is one of the four. */
  lemma {:induction false} CountsPartition(logs: seq<MessageLog>)
    requires forall l :: l in logs ==> l.status in {Sent, Delivered, Read, Failed}
    ensures CountStatus(logs, Sent) + CountStatus(logs, Delivered) + CountStatus(logs, Read) + CountStatus(logs, Failed) == |logs|
  {
    if logs != [] {
      assert logs[0] in logs;
      CountsPartition(logs[1..]);
    }
  }
}
