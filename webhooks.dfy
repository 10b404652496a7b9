/**
 * The gateway's webhook route and the automation bot (backend/src/routes/webhooks.js).
 *
 * A `connection.update` event sets the `wa_status` of the tenants on the
 * instance; a `messages.update` event moves the campaign rows and message logs
 * carrying an acknowledged message id to delivered or read; a
 * `messages.upsert` event runs the bot once per inbound text message from a
 * person. The bot resumes the conversation stored in `bot_sessions` for
 * (tenant, phone), or else starts the first active automation whose trigger
 * fires, and walks the automation's nodes in `order_index` order until a
 * `wait` or `menu` node suspends it or the last node completes it.
 */
module Webhooks {
  import opened Wrappers
  import opened Text
  import opened Store
  import opened Ordering
  import MenuOptions
  import Automations

  type Automation = Automations.Automation
  type NodeRow = Automations.NodeRow
  type MenuOption = MenuOptions.MenuOption

  // ---------------------------------------------------------------------------
  // connection.update
  // ---------------------------------------------------------------------------

  /** The `wa_status` a `connection.update` event writes. */
  function ConnectionStatus(state: Option<string>): (status: string)
    ensures status == "connected" <==> state == Some("open")
    ensures status == "connected" || status == "disconnected"
  {
    if state == Some("open") then "connected" else "disconnected"
  }

  /** `tenants` after the update of every tenant whose `wa_instance_id` is `instance`. */
  function ConnectionUpdate(tenants: map<int, Tenant>, instance: string, state: Option<string>): (r: map<int, Tenant>)
    ensures r.Keys == tenants.Keys
  {
    map id | id in tenants ::
      if tenants[id].waInstanceId == Some(instance) then tenants[id].(waStatus := ConnectionStatus(state))
      else tenants[id]
  }

  /**
   * The tenants on the instance are connected exactly when the state is
   * `open`; nothing else about them, and nothing about other tenants, changes.
   */
  lemma ConnectedIffOpen(tenants: map<int, Tenant>, instance: string, state: Option<string>, id: int)
    requires id in tenants
    ensures var r := ConnectionUpdate(tenants, instance, state);
      && (tenants[id].waInstanceId == Some(instance) ==>
            (r[id].waStatus == "connected" <==> state == Some("open"))
            && r[id].(waStatus := tenants[id].waStatus) == tenants[id])
      && (tenants[id].waInstanceId != Some(instance) ==> r[id] == tenants[id])
  {
  }

  /** Only the last of two connection events for the same instance matters. */
  lemma LastConnectionEventWins(tenants: map<int, Tenant>, instance: string, first: Option<string>, second: Option<string>)
    ensures ConnectionUpdate(ConnectionUpdate(tenants, instance, first), instance, second)
         == ConnectionUpdate(tenants, instance, second)
  {
  }

  // ---------------------------------------------------------------------------
  // messages.update
  // ---------------------------------------------------------------------------

  /** One entry of a `messages.update` event: `key.id` and `update.status`. */
  datatype Receipt = Receipt(keyId: Option<string>, status: Option<string>)

  /** The row status a gateway acknowledgement stands for, if any. */
  function AckStatus(status: Option<string>): (r: Option<RowStatus>)
    ensures r == Some(Delivered) <==> status == Some("DELIVERY_ACK")
    ensures r == Some(Read) <==> status == Some("READ") || status == Some("PLAYED")
    ensures r.Some? ==> r.value == Delivered || r.value == Read
  {
    if status == Some("DELIVERY_ACK") then Some(Delivered)
    else if status == Some("READ") || status == Some("PLAYED") then Some(Read)
    else None
  }

  /** The update both tables get for a receipt: `mark` applied to the entries where `carries` holds. */
  function MarkWhere<T>(xs: seq<T>, carries: T -> bool, mark: T -> T): (r: seq<T>)
    ensures |r| == |xs|
    ensures forall k :: 0 <= k < |xs| ==> (carries(xs[k]) ==> r[k] == mark(xs[k])) && (!carries(xs[k]) ==> r[k] == xs[k])
  {
    seq(|xs|, k requires 0 <= k < |xs| => if carries(xs[k]) then mark(xs[k]) else xs[k])
  }

  /**
   * `campaign_contacts` with the rows carrying message id `id` set to `st`:
   * only the status changes, it changes only on those rows, and those rows
   * all end at `st`.
   */
  function MarkRows(rows: seq<QueueRow>, id: string, st: RowStatus): (r: seq<QueueRow>)
    ensures |r| == |rows|
    ensures forall k :: 0 <= k < |rows| ==>
      && r[k] == rows[k].(status := r[k].status)
      && (rows[k].waMessageId == Some(id) ==> r[k].status == st)
      && (rows[k].waMessageId != Some(id) ==> r[k] == rows[k])
  {
    MarkWhere(rows, (row: QueueRow) => row.waMessageId == Some(id), (row: QueueRow) => row.(status := st))
  }

  /**
   * `message_logs` with the logs carrying message id `id` set to `st`, with
   * the same guarantees as `MarkRows` on the other table.
   */
  function MarkLogs(logs: seq<MessageLog>, id: string, st: RowStatus): (r: seq<MessageLog>)
    ensures |r| == |logs|
    ensures forall k :: 0 <= k < |logs| ==>
      && r[k] == logs[k].(status := r[k].status)
      && (logs[k].waMessageId == Some(id) ==> r[k].status == st)
      && (logs[k].waMessageId != Some(id) ==> r[k] == logs[k])
  {
    MarkWhere(logs, (log: MessageLog) => log.waMessageId == Some(id), (log: MessageLog) => log.(status := st))
  }

  /** The store after one receipt. */
  function Ack(db: Db, u: Receipt): Db {
    match AckStatus(u.status)
    case Some(st) =>
      if Truthy(u.keyId) then db.(rows := MarkRows(db.rows, u.keyId.value, st), logs := MarkLogs(db.logs, u.keyId.value, st))
      else db
    case None => db
  }

  /** The store after receipts `k..` of a `messages.update` event, in order. */
  function AckAll(db: Db, us: seq<Receipt>, k: nat): Db
    requires k <= |us|
    decreases |us| - k
  {
    if k == |us| then db else AckAll(Ack(db, us[k]), us, k + 1)
  }

  /**
   * A receipt with a known status and an id moves exactly the rows and logs
   * carrying that id to the status; any other receipt changes nothing.
   */
  lemma AckMarks(db: Db, u: Receipt)
    ensures var r := Ack(db, u);
      && |r.rows| == |db.rows| && |r.logs| == |db.logs|
      && r == db.(rows := r.rows, logs := r.logs)
      && (AckStatus(u.status).None? || !Truthy(u.keyId) ==> r == db)
      && (AckStatus(u.status).Some? && Truthy(u.keyId) ==>
            && (forall k :: 0 <= k < |db.rows| ==>
                  r.rows[k] == if db.rows[k].waMessageId == u.keyId then db.rows[k].(status := AckStatus(u.status).value) else db.rows[k])
            && (forall k :: 0 <= k < |db.logs| ==>
                  r.logs[k] == if db.logs[k].waMessageId == u.keyId then db.logs[k].(status := AckStatus(u.status).value) else db.logs[k]))
  {
  }

  /** `after` differs from `before` at most in the status of rows that carry a message id. */
  predicate AckedOnly(before: seq<QueueRow>, after: seq<QueueRow>) {
    && |after| == |before|
    && forall k :: 0 <= k < |before| ==>
         && after[k] == before[k].(status := after[k].status)
         && (before[k].waMessageId.None? ==> after[k] == before[k])
  }

  /**
   * Receipts only ever change the status of rows that were sent (they carry a
   * gateway message id): a queued row is never touched, so the worker's
   * queued-only fetch is unaffected, and no other table changes.
   */
  lemma {:induction false} ReceiptsTouchOnlySentRows(db: Db, us: seq<Receipt>, k: nat)
    requires k <= |us|
    ensures AckedOnly(db.rows, AckAll(db, us, k).rows)
    ensures AckAll(db, us, k) == db.(rows := AckAll(db, us, k).rows, logs := AckAll(db, us, k).logs)
    decreases |us| - k
  {
    if k < |us| {
      var next := Ack(db, us[k]);
      AckMarks(db, us[k]);
      ReceiptsTouchOnlySentRows(next, us, k + 1);
    }
  }

  /** A later READ can be overtaken by a DELIVERY_ACK: the row ends as the last receipt says. */
  lemma LastReceiptWins(db: Db, id: string, k: nat)
    requires id != [] && k < |db.rows| && db.rows[k].waMessageId == Some(id)
    ensures var r := AckAll(db, [Receipt(Some(id), Some("READ")), Receipt(Some(id), Some("DELIVERY_ACK"))], 0);
      k < |r.rows| && r.rows[k].status == Delivered
  {
    var us := [Receipt(Some(id), Some("READ")), Receipt(Some(id), Some("DELIVERY_ACK"))];
    var once := Ack(db, us[0]);
    AckMarks(db, us[0]);
    AckMarks(once, us[1]);
    assert AckAll(db, us, 0) == AckAll(once, us, 1) == AckAll(Ack(once, us[1]), us, 2);
  }

  /** The loop of the `messages.update` branch. */
  method HandleReceipts(s: Store, us: seq<Receipt>)
    modifies s
    ensures s.State() == AckAll(old(s.State()), us, 0)
  {
    var k := 0;
    while k < |us|
      invariant k <= |us|
      invariant AckAll(s.State(), us, k) == AckAll(old(s.State()), us, 0)
    {
      var u := us[k];
      var st := AckStatus(u.status);
      if st.Some? && Truthy(u.keyId) {
        s.rows := MarkRows(s.rows, u.keyId.value, st.value);
        s.logs := MarkLogs(s.logs, u.keyId.value, st.value);
      }
      k := k + 1;
    }
  }

  // ---------------------------------------------------------------------------
  // messages.upsert: which messages reach the bot
  // ---------------------------------------------------------------------------

  /** One entry of a `messages.upsert` event. */
  datatype Inbound = Inbound(
    fromMe: bool,
    remoteJid: Option<string>,
    conversation: Option<string>,
    extendedText: Option<string>)

  const PersonSuffix: string := "@s.whatsapp.net"
  const GroupSuffix: string := "@g.us"

  /** The message text: `conversation`, else the extended text, else "", trimmed. */
  function MessageText(m: Inbound): string {
    Trim(if Truthy(m.conversation) then m.conversation.value else OrString(m.extendedText, ""))
  }

  /** The sender's number and the text the bot is run with, or None when the message is skipped. */
  function Sender(m: Inbound): (r: Option<(string, string)>)
    ensures r.Some? <==>
      && !m.fromMe && m.remoteJid.Some?
      && RemoveFirst(m.remoteJid.value, PersonSuffix) != []
      && !EndsWith(RemoveFirst(m.remoteJid.value, PersonSuffix), GroupSuffix)
      && MessageText(m) != []
    ensures r.Some? ==> r.value.1 == MessageText(m)
  {
    if m.fromMe || m.remoteJid.None? then None
    else
      var from := RemoveFirst(m.remoteJid.value, PersonSuffix);
      if from == [] || EndsWith(from, GroupSuffix) then None
      else
        var text := MessageText(m);
        if text == [] then None else Some((from, text))
  }

  /** Helper: a jid `p@…` whose number part has no `@` has its first `@` right after `p`. */
  lemma NoEarlierOccurrence(p: string, suffix: string, pat: string)
    requires '@' !in p && pat != [] && pat[0] == '@'
    ensures forall j: nat :: j < |p| ==> !OccursAt(p + suffix, j, pat)
  {
    forall j: nat | j < |p| ensures !OccursAt(p + suffix, j, pat) {
      assert (p + suffix)[j] == p[j];
      assert p[j] in p;
      if j + |pat| <= |p + suffix| {
        assert (p + suffix)[j..j + |pat|][0] == (p + suffix)[j];
      }
    }
  }

  /** Helper: removing an `@`-suffix from `p` + suffix, where `p` has no `@`, gives `p`. */
  lemma RemoveSuffix(p: string, suffix: string)
    requires '@' !in p && suffix != [] && suffix[0] == '@'
    ensures RemoveFirst(p + suffix, suffix) == p
  {
    var jid := p + suffix;
    NoEarlierOccurrence(p, suffix, suffix);
    assert jid[|p|..|p| + |suffix|] == suffix;
    assert OccursAt(jid, |p|, suffix);
    assert IndexOf(jid, suffix, 0) == Some(|p|);
    assert jid[..|p|] == p;
  }

  /** Helper: a string without `@` does not end in an `@`-suffix. */
  lemma NoAtNoSuffix(p: string, suffix: string)
    requires '@' !in p && suffix != [] && suffix[0] == '@'
    ensures !EndsWith(p, suffix)
  {
    if |suffix| <= |p| {
      assert p[|p| - |suffix|..][0] == p[|p| - |suffix|];
      assert p[|p| - |suffix|] in p;
    }
  }

  /** A message from a person `p@s.whatsapp.net` is answered on number `p` with its trimmed text. */
  lemma PersonAnswered(p: string, m: Inbound)
    requires p != [] && '@' !in p
    requires !m.fromMe && m.remoteJid == Some(p + PersonSuffix) && MessageText(m) != []
    ensures Sender(m) == Some((p, MessageText(m)))
  {
    RemoveSuffix(p, PersonSuffix);
    NoAtNoSuffix(p, GroupSuffix);
  }

  /** A message from a group `g@g.us` never reaches the bot. */
  lemma GroupIgnored(g: string, m: Inbound)
    requires '@' !in g
    requires m.remoteJid == Some(g + GroupSuffix)
    ensures Sender(m).None?
  {
    var jid := g + GroupSuffix;
    NoEarlierOccurrence(g, GroupSuffix, PersonSuffix);
    assert IndexOf(jid, PersonSuffix, 0).None?;
    assert RemoveFirst(jid, PersonSuffix) == jid;
    assert jid[|jid| - |GroupSuffix|..] == GroupSuffix;
  }

  // ---------------------------------------------------------------------------
  // The automations the bot considers
  // ---------------------------------------------------------------------------

  /** An automation with the node rows the join `automation_nodes(*)` returns for it. */
  datatype Flow = Flow(automation: Automation, nodes: seq<NodeRow>)

  function CreatedAt(a: Automation): int { a.createdAt }

  function NodeOrder(n: NodeRow): int { n.orderIndex }

  /** The tenant's active automations, in table order. */
  function Owned(autos: seq<Automation>, tenantId: int): (r: seq<Automation>)
    ensures forall a :: a in r <==> a in autos && a.tenantId == tenantId && a.active
  {
    if autos == [] then []
    else
      var rest := Owned(autos[1..], tenantId);
      assert forall a :: a in autos <==> a == autos[0] || a in autos[1..];
      if autos[0].tenantId == tenantId && autos[0].active then [autos[0]] + rest else rest
  }

  /** The node rows of automation `id`, in table order. */
  function NodesOf(nodes: seq<NodeRow>, id: int): (r: seq<NodeRow>)
    ensures forall n :: n in r <==> n in nodes && n.automationId == id
  {
    if nodes == [] then []
    else
      var rest := NodesOf(nodes[1..], id);
      assert forall n :: n in nodes <==> n == nodes[0] || n in nodes[1..];
      if nodes[0].automationId == id then [nodes[0]] + rest else rest
  }

  /**
   * The automations query of the bot: the tenant's active automations ordered
   * by `created_at`, each with its nodes; every such automation is in it.
   */
  function ActiveFlows(autos: seq<Automation>, nodes: seq<NodeRow>, tenantId: int): (r: seq<Flow>)
    ensures forall k :: 0 <= k < |r| ==>
      && r[k].automation in autos && r[k].automation.tenantId == tenantId && r[k].automation.active
      && r[k].nodes == NodesOf(nodes, r[k].automation.id)
    ensures forall i, j :: 0 <= i < j < |r| ==> r[i].automation.createdAt <= r[j].automation.createdAt
    ensures forall a :: a in autos && a.tenantId == tenantId && a.active ==> exists k :: 0 <= k < |r| && r[k].automation == a
  {
    var sorted := SortBy(Owned(autos, tenantId), CreatedAt);
    var r := seq(|sorted|, k requires 0 <= k < |sorted| => Flow(sorted[k], NodesOf(nodes, sorted[k].id)));
    FlowsOwned(autos, nodes, tenantId, sorted, r);
    FlowsOrdered(nodes, sorted, r);
    FlowsComplete(autos, tenantId, sorted, r);
    r
  }

  /** Helper: the flows built from the sorted automations are the tenant's active ones, with their nodes. */
  lemma FlowsOwned(autos: seq<Automation>, nodes: seq<NodeRow>, tenantId: int, sorted: seq<Automation>, r: seq<Flow>)
    requires sorted == SortBy(Owned(autos, tenantId), CreatedAt)
    requires |r| == |sorted| && forall k :: 0 <= k < |r| ==> r[k] == Flow(sorted[k], NodesOf(nodes, sorted[k].id))
    ensures forall k :: 0 <= k < |r| ==>
      && r[k].automation in autos && r[k].automation.tenantId == tenantId && r[k].automation.active
      && r[k].nodes == NodesOf(nodes, r[k].automation.id)
  {
    SortKeepsMembers(Owned(autos, tenantId), CreatedAt);
    forall k | 0 <= k < |r|
      ensures r[k].automation in autos && r[k].automation.tenantId == tenantId && r[k].automation.active
    {
      assert r[k].automation == sorted[k] && sorted[k] in sorted;
    }
  }

  /** Helper: the flows built from the sorted automations are in `created_at` order. */
  lemma FlowsOrdered(nodes: seq<NodeRow>, sorted: seq<Automation>, r: seq<Flow>)
    requires SortedBy(sorted, CreatedAt)
    requires |r| == |sorted| && forall k :: 0 <= k < |r| ==> r[k] == Flow(sorted[k], NodesOf(nodes, sorted[k].id))
    ensures forall i, j :: 0 <= i < j < |r| ==> r[i].automation.createdAt <= r[j].automation.createdAt
  {
    forall i, j | 0 <= i < j < |r| ensures r[i].automation.createdAt <= r[j].automation.createdAt {
      assert CreatedAt(sorted[i]) <= CreatedAt(sorted[j]);
    }
  }

  /** Helper: every active automation of the tenant has a flow. */
  lemma FlowsComplete(autos: seq<Automation>, tenantId: int, sorted: seq<Automation>, r: seq<Flow>)
    requires sorted == SortBy(Owned(autos, tenantId), CreatedAt)
    requires |r| == |sorted| && forall k :: 0 <= k < |r| ==> r[k].automation == sorted[k]
    ensures forall a :: a in autos && a.tenantId == tenantId && a.active ==> exists k :: 0 <= k < |r| && r[k].automation == a
  {
    var owned := Owned(autos, tenantId);
    SortKeepsMembers(owned, CreatedAt);
    forall a | a in autos && a.tenantId == tenantId && a.active
      ensures exists k :: 0 <= k < |r| && r[k].automation == a
    {
      assert a in owned;
      var k := PositionOf(a, sorted);
      assert r[k].automation == a;
    }
  }

  /** Helper: a position at which a member of a sequence stands. */
  lemma PositionOf<T>(x: T, s: seq<T>) returns (k: nat)
    requires x in s
    ensures k < |s| && s[k] == x
  {
    k :| k < |s| && s[k] == x;
  }

  // ---------------------------------------------------------------------------
  // Triggers
  // ---------------------------------------------------------------------------

  /** `text.toLowerCase().includes(kw.toLowerCase())`. */
  ghost predicate KeywordHit(text: string, kw: string) {
    Includes(LowerAll(text), LowerAll(kw))
  }

  /** Whether automation `a` starts on `text`: `always`, or `keyword` with some keyword in the text. */
  ghost predicate Fires(a: Automation, text: string) {
    || a.triggerType == "always"
    || (a.triggerType == "keyword" && exists j :: 0 <= j < |a.triggerKeywords| && KeywordHit(text, a.triggerKeywords[j]))
  }

  /** `kws.slice(from).some(kw => ...)`. */
  function AnyKeyword(kws: seq<string>, text: string, from: nat): (hit: bool)
    ensures hit <==> exists j :: from <= j < |kws| && KeywordHit(text, kws[j])
    decreases |kws| - from
  {
    if from >= |kws| then false
    else IndexOf(LowerAll(text), LowerAll(kws[from]), 0).Some? || AnyKeyword(kws, text, from + 1)
  }

  /** The first automation from position `from` on whose trigger fires on `text`. */
  function FirstTriggered(flows: seq<Flow>, text: string, from: nat): (r: Option<nat>)
    ensures r.Some? ==> from <= r.value < |flows| && Fires(flows[r.value].automation, text)
    ensures r.Some? ==> forall k :: from <= k < r.value ==> !Fires(flows[k].automation, text)
    ensures r.None? ==> forall k :: from <= k < |flows| ==> !Fires(flows[k].automation, text)
    decreases |flows| - from
  {
    if from >= |flows| then None
    else
      var a := flows[from].automation;
      if a.triggerType == "always" then Some(from)
      else if a.triggerType == "keyword" && AnyKeyword(a.triggerKeywords, text, 0) then Some(from)
      else FirstTriggered(flows, text, from + 1)
  }

  /** A `menu` trigger never starts an automation. */
  lemma MenuTriggerNeverFires(a: Automation, text: string)
    requires a.triggerType == "menu"
    ensures !Fires(a, text)
  {
  }

  /** An empty keyword is contained in every text: its automation fires on every message. */
  lemma EmptyKeywordFiresAlways(a: Automation, text: string)
    requires a.triggerType == "keyword" && "" in a.triggerKeywords
    ensures Fires(a, text)
  {
    var j :| 0 <= j < |a.triggerKeywords| && a.triggerKeywords[j] == "";
    assert OccursAt(LowerAll(text), 0, LowerAll(""));
  }

  /** Keywords match regardless of (ASCII) letter case in the text. */
  lemma KeywordCaseInsensitive(text: string, kw: string)
    ensures KeywordHit(text, kw) <==> KeywordHit(LowerAll(text), kw)
  {
    assert LowerAll(LowerAll(text)) == LowerAll(text);
  }

  // ---------------------------------------------------------------------------
  // Nodes and menus
  // ---------------------------------------------------------------------------

  /** `getNodeByIndex`: the node at position `index` of the nodes sorted by `order_index`. */
  function GetNodeByIndex(f: Flow, index: int): (r: Option<NodeRow>)
    ensures r.Some? <==> 0 <= index < |f.nodes|
    ensures r.Some? ==> r.value in f.nodes && r.value == SortBy(f.nodes, NodeOrder)[index]
  {
    var nodes := SortBy(f.nodes, NodeOrder);
    if 0 <= index < |nodes| then
      assert nodes[index] in multiset(f.nodes);
      Some(nodes[index])
    else None
  }

  /** `node.options ? JSON.parse(node.options) : []`, None where JSON.parse throws. */
  function NodeOptions(node: NodeRow): Option<seq<MenuOption>> {
    if Truthy(node.options) then MenuOptions.Decode(node.options.value) else Some([])
  }

  /** `options.find(o => o.key === key)`, as a position from `from` on. */
  function FindKey(os: seq<MenuOption>, key: string, from: nat): (r: Option<nat>)
    ensures r.Some? ==> from <= r.value < |os| && os[r.value].key == key
    ensures r.Some? ==> forall j :: from <= j < r.value ==> os[j].key != key
    ensures r.None? ==> forall j :: from <= j < |os| ==> os[j].key != key
    decreases |os| - from
  {
    if from >= |os| then None
    else if os[from].key == key then Some(from)
    else FindKey(os, key, from + 1)
  }

  /** One line of a menu: `*key*  label`. */
  function OptionLine(o: MenuOption): string {
    "*" + o.key + "*  " + o.labelText
  }

  function OptionLines(os: seq<MenuOption>): (lines: seq<string>)
    ensures |lines| == |os| && forall k :: 0 <= k < |os| ==> lines[k] == OptionLine(os[k])
  {
    seq(|os|, k requires 0 <= k < |os| => OptionLine(os[k]))
  }

  /** `buildMenuText`: the node's content, with the option list under a menu; None where JSON.parse throws. */
  function BuildMenuText(node: NodeRow): (r: Option<string>)
    ensures r.None? <==> node.nodeType == "menu" && NodeOptions(node).None?
    ensures r.Some? ==> StartsWith(r.value, OrString(node.content, ""))
    ensures r.Some? && (node.nodeType != "menu" || NodeOptions(node) == Some([])) ==> r.value == OrString(node.content, "")
  {
    var text := OrString(node.content, "");
    if node.nodeType != "menu" then Some(text)
    else
      match NodeOptions(node)
      case None => None
      case Some(os) =>
        if os == [] then Some(text)
        else
          var r := text + "\n\n" + Join(OptionLines(os), '\n');
          assert r[..|text|] == text;
          Some(r)
  }

  /**
   * Under a menu with options, the text after the content and a blank line
   * is one `*key*  label` line per option, in order, provided no key or label
   * spans lines.
   */
  lemma MenuListing(node: NodeRow, os: seq<MenuOption>)
    requires node.nodeType == "menu" && NodeOptions(node) == Some(os) && os != []
    requires forall o :: o in os ==> '\n' !in o.key && '\n' !in o.labelText
    ensures var content := OrString(node.content, "");
      && BuildMenuText(node).Some?
      && BuildMenuText(node).value[..|content|] == content
      && BuildMenuText(node).value[|content|..|content| + 2] == "\n\n"
      && Split(BuildMenuText(node).value[|content| + 2..], '\n') == OptionLines(os)
  {
    var content := OrString(node.content, "");
    var listing := Join(OptionLines(os), '\n');
    var r := content + "\n\n" + listing;
    assert BuildMenuText(node) == Some(r);
    assert r[|content| + 2..] == listing;
    forall k | 0 <= k < |os| ensures '\n' !in OptionLines(os)[k] {
      assert os[k] in os;
    }
    JoinSplit(OptionLines(os), '\n');
  }

  /** Every node row the automation routes store renders: its options always parse. */
  lemma StoredNodesRender(nodes: seq<Automations.RequestNode>, automationId: int, tenantId: int, row: NodeRow)
    requires row in Automations.NodeRows(nodes, automationId, tenantId)
    ensures BuildMenuText(row).Some?
  {
    Automations.RowsOptionsParse(nodes, automationId, tenantId);
  }

  // ---------------------------------------------------------------------------
  // Where a conversation starts or resumes
  // ---------------------------------------------------------------------------

  /**
   * The position a session at `current` resumes from: under a menu, the
   * `next_node_order` of the option whose key is the text; otherwise, and
   * when no key matches, the next position. None where JSON.parse throws.
   */
  function ResumeIndex(f: Flow, current: int, text: string): (r: Option<int>)
    ensures r.None? <==>
      GetNodeByIndex(f, current).Some? && GetNodeByIndex(f, current).value.nodeType == "menu"
      && NodeOptions(GetNodeByIndex(f, current).value).None?
    ensures (GetNodeByIndex(f, current).None? || GetNodeByIndex(f, current).value.nodeType != "menu") ==> r == Some(current + 1)
  {
    var node := GetNodeByIndex(f, current);
    if node.Some? && node.value.nodeType == "menu" then
      match NodeOptions(node.value)
      case None => None
      case Some(os) =>
        match FindKey(os, Trim(text), 0)
        case Some(k) => Some(os[k].nextNodeOrder)
        case None => Some(current + 1)
    else Some(current + 1)
  }

  /**
   * At a menu whose options were stored by the automation routes, the reply
   * that equals (after trimming) the key of an option jumps to that option's
   * `next_node_order`; any other reply goes on to the next position.
   */
  lemma ResumeFollowsStoredMenu(f: Flow, current: int, text: string, os: seq<MenuOption>)
    requires GetNodeByIndex(f, current).Some?
    requires GetNodeByIndex(f, current).value.nodeType == "menu"
    requires GetNodeByIndex(f, current).value.options == Some(MenuOptions.Encode(os))
    ensures forall k :: 0 <= k < |os| && os[k].key == Trim(text) && (forall j :: 0 <= j < k ==> os[j].key != Trim(text))
              ==> ResumeIndex(f, current, text) == Some(os[k].nextNodeOrder)
    ensures (forall o :: o in os ==> o.key != Trim(text)) ==> ResumeIndex(f, current, text) == Some(current + 1)
  {
    var node := GetNodeByIndex(f, current).value;
    var key := Trim(text);
    StoredOptionsDecode(node, os);
    ResumeAtMenu(f, current, text, node, os);
    FindKeyFirst(os, key);
    var found := FindKey(os, key, 0);
    assert ResumeIndex(f, current, text) == if found.Some? then Some(os[found.value].nextNodeOrder) else Some(current + 1);
    forall k | 0 <= k < |os| && os[k].key == key && (forall j :: 0 <= j < k ==> os[j].key != key)
      ensures ResumeIndex(f, current, text) == Some(os[k].nextNodeOrder)
    {
      assert found == Some(k);
    }
  }

  /** Helper: options stored as the encoding of `os` parse back to `os`. */
  lemma StoredOptionsDecode(node: NodeRow, os: seq<MenuOption>)
    requires node.options == Some(MenuOptions.Encode(os))
    ensures NodeOptions(node) == Some(os)
  {
    MenuOptions.DecodeEncode(os);
  }

  /** Helper: at a menu whose options parse, the resume position is chosen by the key search. */
  lemma ResumeAtMenu(f: Flow, current: int, text: string, node: NodeRow, os: seq<MenuOption>)
    requires GetNodeByIndex(f, current) == Some(node) && node.nodeType == "menu"
    requires NodeOptions(node) == Some(os)
    ensures var found := FindKey(os, Trim(text), 0);
      ResumeIndex(f, current, text) == if found.Some? then Some(os[found.value].nextNodeOrder) else Some(current + 1)
  {
  }

  /** Helper: the search from the start finds exactly the first option with the key. */
  lemma FindKeyFirst(os: seq<MenuOption>, key: string)
    ensures forall k :: 0 <= k < |os| && os[k].key == key && (forall j :: 0 <= j < k ==> os[j].key != key)
              ==> FindKey(os, key, 0) == Some(k)
    ensures (forall o :: o in os ==> o.key != key) ==> FindKey(os, key, 0) == None
  {
    var r := FindKey(os, key, 0);
    if r.Some? {
      assert os[r.value] in os;
    }
  }

  /** Where the bot starts: nowhere, at a thrown error, or at a position of an automation's nodes. */
  datatype Start = NoFlow | Crash | StartAt(flow: Flow, index: int)

  /** `automations.find(a => a.id === id)`, as a position from `from` on. */
  function FindFlow(flows: seq<Flow>, id: int, from: nat): (r: Option<nat>)
    ensures r.Some? ==> from <= r.value < |flows| && flows[r.value].automation.id == id
    ensures r.Some? ==> forall k :: from <= k < r.value ==> flows[k].automation.id != id
    ensures r.None? ==> forall k :: from <= k < |flows| ==> flows[k].automation.id != id
    decreases |flows| - from
  {
    if from >= |flows| then None
    else if flows[from].automation.id == id then Some(from)
    else FindFlow(flows, id, from + 1)
  }

  /** The session resolution and trigger scan of `processBotMessage`. */
  function Resolve(flows: seq<Flow>, session: Option<Session>, text: string): Start {
    var resumed := if session.Some? then FindFlow(flows, session.value.automationId, 0) else None;
    if resumed.Some? then
      match ResumeIndex(flows[resumed.value], session.value.currentNodeIndex, text)
      case None => Crash
      case Some(i) => StartAt(flows[resumed.value], i)
    else
      match FirstTriggered(flows, text, 0)
      case None => NoFlow
      case Some(k) => StartAt(flows[k], 0)
  }

  /**
   * A session whose automation is still active is resumed, whatever the
   * triggers say: the start is in that automation at the resume position.
   */
  lemma SessionTakesPrecedence(flows: seq<Flow>, session: Session, text: string)
    requires exists k :: 0 <= k < |flows| && flows[k].automation.id == session.automationId
    ensures var r := Resolve(flows, Some(session), text);
      && (r.StartAt? || r.Crash?)
      && (r.StartAt? ==> r.flow.automation.id == session.automationId)
      && (r.StartAt? ==> Some(r.index) == ResumeIndex(r.flow, session.currentNodeIndex, text))
  {
  }

  /**
   * Without a resumable session the bot starts at position 0 of the first
   * automation, in `created_at` order, whose trigger fires, and does nothing
   * when none fires.
   */
  lemma FirstFiringAutomationStarts(flows: seq<Flow>, session: Option<Session>, text: string)
    requires session.None? || forall k :: 0 <= k < |flows| ==> flows[k].automation.id != session.value.automationId
    ensures var r := Resolve(flows, session, text);
      && (r.NoFlow? <==> forall k :: 0 <= k < |flows| ==> !Fires(flows[k].automation, text))
      && !r.Crash?
      && (r.StartAt? ==> r.index == 0)
      && (r.StartAt? ==> exists k :: 0 <= k < |flows| && r.flow == flows[k] && Fires(flows[k].automation, text)
                                     && forall j :: 0 <= j < k ==> !Fires(flows[j].automation, text))
  {
    if session.Some? {
      var none := FindFlow(flows, session.value.automationId, 0);
      assert none.None?;
    }
  }

  // ---------------------------------------------------------------------------
  // The node walk
  // ---------------------------------------------------------------------------

  /** What the walk does to the session of (tenant, phone). */
  datatype SessionWrite = Untouched | Saved(index: nat) | Cleared

  /** The gateway calls, pauses and session write of one walk. */
  datatype WalkResult = WalkResult(calls: seq<GatewayCall>, sleeps: seq<int>, session: SessionWrite)

  /** The random part, in milliseconds, of the 2 to 4 second pause between bot messages. */
  type Jitter = x: int | 0 <= x < 2000

  /** The nodes at which the walk suspends. */
  predicate Stops(n: NodeRow) {
    n.nodeType == "wait" || n.nodeType == "menu"
  }

  /**
   * `sendBotMessage`: the one gateway call for a node, or none when building
   * its text throws (the error is caught). A node with a media type other
   * than "none" and a media URL goes out as media with the built text as its
   * caption; any other node goes out as that text.
   */
  function SendNode(instance: string, phone: string, node: NodeRow): (calls: seq<GatewayCall>)
    ensures |calls| <= 1
    ensures calls == [] <==> BuildMenuText(node).None?
    ensures forall c :: c in calls ==> c.instance == instance && c.number == phone
    ensures calls != [] ==> calls[0].SendText? || calls[0].SendMedia?
    ensures calls != [] ==> (calls[0].SendMedia? <==> node.mediaType != "none" && Truthy(node.mediaUrl))
    ensures calls != [] && calls[0].SendMedia? ==>
      && calls[0].caption == BuildMenuText(node).value
      && calls[0].mediaType == node.mediaType && calls[0].media == node.mediaUrl
    ensures calls != [] && calls[0].SendText? ==> calls[0].text == BuildMenuText(node).value
  {
    match BuildMenuText(node)
    case None => []
    case Some(text) =>
      if node.mediaType != "none" && Truthy(node.mediaUrl) then [SendMedia(instance, phone, node.mediaType, text, node.mediaUrl)]
      else [SendText(instance, phone, text)]
  }

  /** The loop of `processBotMessage` from position `i` of the sorted nodes. */
  function Walk(nodes: seq<NodeRow>, i: nat, instance: string, phone: string, jitter: nat -> Jitter): WalkResult
    decreases |nodes| - i
  {
    if i >= |nodes| then WalkResult([], [], Untouched)
    else
      var node := nodes[i];
      if node.nodeType == "wait" then WalkResult([], [], Saved(i))
      else if node.nodeType == "menu" then WalkResult(SendNode(instance, phone, node), [], Saved(i))
      else
        var sent := if node.nodeType == "message" then SendNode(instance, phone, node) else [];
        if i == |nodes| - 1 then WalkResult(sent, [], Cleared)
        else
          var pause := if node.nodeType == "message" then [2000 + jitter(i)] else [];
          var rest := Walk(nodes, i + 1, instance, phone, jitter);
          WalkResult(sent + rest.calls, pause + rest.sleeps, rest.session)
  }

  /** A walk that starts past the last node sends nothing, waits for nothing and leaves the session alone. */
  lemma WalkPastEnd(nodes: seq<NodeRow>, i: nat, instance: string, phone: string, jitter: nat -> Jitter)
    requires i >= |nodes|
    ensures Walk(nodes, i, instance, phone, jitter) == WalkResult([], [], Untouched)
  {
  }

  /**
   * A walk from a position inside the nodes saves the session at the first
   * `wait` or `menu` node from there on, and clears it exactly when there is
   * none.
   */
  lemma {:induction false} WalkSession(nodes: seq<NodeRow>, i: nat, instance: string, phone: string, jitter: nat -> Jitter)
    requires i < |nodes|
    ensures var w := Walk(nodes, i, instance, phone, jitter);
      && (w.session.Saved? <==> exists k :: i <= k < |nodes| && Stops(nodes[k]))
      && (w.session.Saved? ==> i <= w.session.index < |nodes| && Stops(nodes[w.session.index])
                               && forall j :: i <= j < w.session.index ==> !Stops(nodes[j]))
      && (w.session == Cleared <==> forall j :: i <= j < |nodes| ==> !Stops(nodes[j]))
    decreases |nodes| - i
  {
    if !Stops(nodes[i]) && i < |nodes| - 1 {
      WalkSession(nodes, i + 1, instance, phone, jitter);
    }
  }

  /**
   * Every call of a walk answers `phone` on `instance`, there is at most one
   * per node visited, and every pause lasts from 2 to 4 seconds, one per
   * visited `message` node other than the last.
   */
  lemma {:induction false} WalkBounds(nodes: seq<NodeRow>, i: nat, instance: string, phone: string, jitter: nat -> Jitter)
    ensures var w := Walk(nodes, i, instance, phone, jitter);
      && (forall c :: c in w.calls ==> c.instance == instance && c.number == phone)
      && (i <= |nodes| ==> |w.calls| <= |nodes| - i && |w.sleeps| <= |nodes| - i)
      && (forall d :: d in w.sleeps ==> 2000 <= d < 4000)
    decreases |nodes| - i
  {
    if i < |nodes| && !Stops(nodes[i]) && i < |nodes| - 1 {
      WalkBounds(nodes, i + 1, instance, phone, jitter);
    }
  }

  // ---------------------------------------------------------------------------
  // processBotMessage
  // ---------------------------------------------------------------------------

  /** The store after the walk's calls, pauses and session write for `key`. */
  function ApplyWalk(db: Db, key: SessionKey, automationId: int, w: WalkResult): Db {
    db.(calls := db.calls + w.calls,
        sleeps := db.sleeps + w.sleeps,
        sessions := match w.session
                    case Untouched => db.sessions
                    case Saved(k) => db.sessions[key := Session(automationId, k)]
                    case Cleared => db.sessions - {key})
  }

  /**
   * `processBotMessage(tenant, phone, text)` on the store `db`; None where it
   * throws (options that do not parse at a resumed menu, or a negative start
   * position, where `nodes[i]` is undefined).
   */
  function Bot(db: Db, tenantId: int, instance: string, phone: string, text: string, jitter: nat -> Jitter): Option<Db> {
    var key := (tenantId, phone);
    var session := if key in db.sessions then Some(db.sessions[key]) else None;
    match Resolve(ActiveFlows(db.automations, db.nodes, tenantId), session, text)
    case NoFlow => Some(db)
    case Crash => None
    case StartAt(flow, index) =>
      if index < 0 then None
      else Some(ApplyWalk(db, key, flow.automation.id, Walk(SortBy(flow.nodes, NodeOrder), index, instance, phone, jitter)))
  }

  /** `after` is `before` with only the session at `key` changed and calls to `phone` and bot pauses appended. */
  ghost predicate Framed(before: Db, after: Db, key: SessionKey, instance: string, phone: string) {
    && after == before.(sessions := after.sessions, calls := after.calls, sleeps := after.sleeps)
    && (forall k :: k != key ==> (k in after.sessions <==> k in before.sessions))
    && (forall k :: k != key && k in before.sessions ==> after.sessions[k] == before.sessions[k])
    && |before.calls| <= |after.calls| && after.calls[..|before.calls|] == before.calls
    && (forall c :: c in after.calls[|before.calls|..] ==> c.instance == instance && c.number == phone)
    && |before.sleeps| <= |after.sleeps| && after.sleeps[..|before.sleeps|] == before.sleeps
    && (forall d :: d in after.sleeps[|before.sleeps|..] ==> 2000 <= d < 4000)
  }

  /** Helper: applying a walk that answers `phone` with bot pauses is framed. */
  lemma ApplyWalkFramed(db: Db, key: SessionKey, automationId: int, w: WalkResult, instance: string, phone: string)
    requires forall c :: c in w.calls ==> c.instance == instance && c.number == phone
    requires forall d :: d in w.sleeps ==> 2000 <= d < 4000
    ensures Framed(db, ApplyWalk(db, key, automationId, w), key, instance, phone)
  {
    var r := ApplyWalk(db, key, automationId, w);
    assert r.calls[..|db.calls|] == db.calls && r.calls[|db.calls|..] == w.calls;
    assert r.sleeps[..|db.sleeps|] == db.sleeps && r.sleeps[|db.sleeps|..] == w.sleeps;
  }

  /**
   * The bot changes only the session of (tenant, phone), appends gateway
   * calls to `phone` and pauses of 2 to 4 seconds, and leaves every other
   * table and every other session as it was.
   */
  lemma BotFrame(db: Db, tenantId: int, instance: string, phone: string, text: string, jitter: nat -> Jitter)
    requires Bot(db, tenantId, instance, phone, text, jitter).Some?
    ensures Framed(db, Bot(db, tenantId, instance, phone, text, jitter).value, (tenantId, phone), instance, phone)
  {
    var key := (tenantId, phone);
    var session := if key in db.sessions then Some(db.sessions[key]) else None;
    var start := Resolve(ActiveFlows(db.automations, db.nodes, tenantId), session, text);
    if start.StartAt? {
      var nodes := SortBy(start.flow.nodes, NodeOrder);
      WalkBounds(nodes, start.index, instance, phone, jitter);
      ApplyWalkFramed(db, key, start.flow.automation.id, Walk(nodes, start.index, instance, phone, jitter), instance, phone);
    } else {
      assert Bot(db, tenantId, instance, phone, text, jitter) == Some(db);
      assert db.calls[..|db.calls|] == db.calls && db.sleeps[..|db.sleeps|] == db.sleeps;
    }
  }

  /** With no session and no automation whose trigger fires, the message changes nothing. */
  lemma UnmatchedMessageIgnored(db: Db, tenantId: int, instance: string, phone: string, text: string, jitter: nat -> Jitter)
    requires (tenantId, phone) !in db.sessions
    requires forall a :: a in db.automations && a.tenantId == tenantId && a.active ==> !Fires(a, text)
    ensures Bot(db, tenantId, instance, phone, text, jitter) == Some(db)
  {
    var flows := ActiveFlows(db.automations, db.nodes, tenantId);
    FirstFiringAutomationStarts(flows, None, text);
  }

  /**
   * A conversation saved at the last node, when that node is a `wait`, is
   * never completed: every later message of that contact resumes past the
   * end, sends nothing and keeps the session, so no trigger fires for the
   * contact again while the automation stays active.
   */
  lemma FinalWaitKeepsContact(db: Db, tenantId: int, instance: string, phone: string, text: string, jitter: nat -> Jitter)
    requires (tenantId, phone) in db.sessions && db.sessions[(tenantId, phone)].currentNodeIndex >= 0
    requires var s := db.sessions[(tenantId, phone)];
      exists a :: a in db.automations && a.tenantId == tenantId && a.active && a.id == s.automationId
        && var nodes := SortBy(NodesOf(db.nodes, a.id), NodeOrder);
           |nodes| == s.currentNodeIndex + 1 && nodes[s.currentNodeIndex].nodeType == "wait"
    ensures Bot(db, tenantId, instance, phone, text, jitter) == Some(db)
  {
    var key := (tenantId, phone);
    var s := db.sessions[key];
    var flows := ActiveFlows(db.automations, db.nodes, tenantId);
    var a :| a in db.automations && a.tenantId == tenantId && a.active && a.id == s.automationId
        && var nodes := SortBy(NodesOf(db.nodes, a.id), NodeOrder);
           |nodes| == s.currentNodeIndex + 1 && nodes[s.currentNodeIndex].nodeType == "wait";
    var k := ActiveFlowOf(db.automations, db.nodes, tenantId, a);
    var f := ResumeAfterFinalWait(flows, s, text, k);
    var w := Walk(SortBy(f.nodes, NodeOrder), s.currentNodeIndex + 1, instance, phone, jitter);
    BotFrom(db, tenantId, instance, phone, text, jitter, StartAt(f, s.currentNodeIndex + 1));
    WalkPastEnd(SortBy(f.nodes, NodeOrder), s.currentNodeIndex + 1, instance, phone, jitter);
    ApplyNothing(db, key, f.automation.id);
  }

  /** Helper: the flow of an active automation of the tenant, carrying the automation's nodes. */
  lemma ActiveFlowOf(autos: seq<Automation>, nodes: seq<NodeRow>, tenantId: int, a: Automation) returns (k: nat)
    requires a in autos && a.tenantId == tenantId && a.active
    ensures var flows := ActiveFlows(autos, nodes, tenantId);
      && k < |flows| && flows[k].automation == a && flows[k].nodes == NodesOf(nodes, a.id)
      && forall j :: 0 <= j < |flows| && flows[j].automation.id == a.id ==> flows[j].nodes == flows[k].nodes
  {
    var flows := ActiveFlows(autos, nodes, tenantId);
    k :| k < |flows| && flows[k].automation == a;
  }

  /** Helper: a walk that does nothing leaves the store as it was. */
  lemma ApplyNothing(db: Db, key: SessionKey, automationId: int)
    ensures ApplyWalk(db, key, automationId, WalkResult([], [], Untouched)) == db
  {
    assert db.calls + [] == db.calls && db.sleeps + [] == db.sleeps;
  }

  /** Helper: a session at a final `wait` resumes past the end of its automation. */
  lemma ResumeAfterFinalWait(flows: seq<Flow>, s: Session, text: string, k: nat) returns (f: Flow)
    requires k < |flows| && flows[k].automation.id == s.automationId && s.currentNodeIndex >= 0
    requires forall j :: 0 <= j < |flows| && flows[j].automation.id == s.automationId ==> flows[j].nodes == flows[k].nodes
    requires var nodes := SortBy(flows[k].nodes, NodeOrder);
      |nodes| == s.currentNodeIndex + 1 && nodes[s.currentNodeIndex].nodeType == "wait"
    ensures Resolve(flows, Some(s), text) == StartAt(f, s.currentNodeIndex + 1)
    ensures |f.nodes| == s.currentNodeIndex + 1
  {
    var found := FindFlow(flows, s.automationId, 0);
    f := flows[found.value];
    assert f.nodes == flows[k].nodes;
    assert GetNodeByIndex(f, s.currentNodeIndex).value.nodeType == "wait";
  }

  /** Helper: the bot from a known start. */
  lemma BotFrom(db: Db, tenantId: int, instance: string, phone: string, text: string, jitter: nat -> Jitter, start: Start)
    requires var key := (tenantId, phone);
      start == Resolve(ActiveFlows(db.automations, db.nodes, tenantId), if key in db.sessions then Some(db.sessions[key]) else None, text)
    requires start.StartAt? && start.index >= 0
    ensures Bot(db, tenantId, instance, phone, text, jitter)
         == Some(ApplyWalk(db, (tenantId, phone), start.flow.automation.id, Walk(SortBy(start.flow.nodes, NodeOrder), start.index, instance, phone, jitter)))
  {
  }

  /** `sendBotMessage` against the store. */
  method SendBotMessage(s: Store, instance: string, phone: string, node: NodeRow)
    modifies s
    ensures s.State() == old(s.State()).(calls := old(s.calls) + SendNode(instance, phone, node))
  {
    s.calls := s.calls + SendNode(instance, phone, node);
  }

  /** One step of the walk past a node that does not stop it and is not the last. */
  lemma WalkStep(db: Db, key: SessionKey, automationId: int, nodes: seq<NodeRow>, i: nat,
                 instance: string, phone: string, jitter: nat -> Jitter)
    requires i < |nodes| - 1 && !Stops(nodes[i])
    ensures var sent := if nodes[i].nodeType == "message" then SendNode(instance, phone, nodes[i]) else [];
      var pause := if nodes[i].nodeType == "message" then [2000 + jitter(i)] else [];
      ApplyWalk(db, key, automationId, Walk(nodes, i, instance, phone, jitter))
        == ApplyWalk(db.(calls := db.calls + sent, sleeps := db.sleeps + pause), key, automationId,
                     Walk(nodes, i + 1, instance, phone, jitter))
  {
    var sent := if nodes[i].nodeType == "message" then SendNode(instance, phone, nodes[i]) else [];
    var pause := if nodes[i].nodeType == "message" then [2000 + jitter(i)] else [];
    var rest := Walk(nodes, i + 1, instance, phone, jitter);
    Regroup(db.calls, sent, rest.calls);
    Regroup(db.sleeps, pause, rest.sleeps);
  }

  /** The loop of `processBotMessage` over the sorted nodes from position `start` on. */
  method RunWalk(s: Store, key: SessionKey, id: int, nodes: seq<NodeRow>, start: nat,
                 instance: string, phone: string, jitter: nat -> Jitter)
    modifies s
    ensures s.State() == ApplyWalk(old(s.State()), key, id, Walk(nodes, start, instance, phone, jitter))
  {
    var i := start;
    while i < |nodes|
      invariant ApplyWalk(s.State(), key, id, Walk(nodes, i, instance, phone, jitter))
             == ApplyWalk(old(s.State()), key, id, Walk(nodes, start, instance, phone, jitter))
      decreases |nodes| - i
    {
      if Stops(nodes[i]) {
        Suspend(s, key, id, nodes, i, instance, phone, jitter);
        return;
      }
      Advance(s, key, id, nodes, i, instance, phone, jitter);
      i := i + 1;
    }
  }

  /** The body of the loop at a `wait` or `menu` node: send a menu, save the session, stop. */
  method Suspend(s: Store, key: SessionKey, id: int, nodes: seq<NodeRow>, i: nat,
                 instance: string, phone: string, jitter: nat -> Jitter)
    requires i < |nodes| && Stops(nodes[i])
    modifies s
    ensures s.State() == ApplyWalk(old(s.State()), key, id, Walk(nodes, i, instance, phone, jitter))
  {
    if nodes[i].nodeType == "menu" {
      SendBotMessage(s, instance, phone, nodes[i]);
    }
    s.sessions := s.sessions[key := Session(id, i)];
  }

  /**
   * The body of the loop at any other node: a `message` node sends its text and
   * pauses unless it is the last node; other node types send nothing and do not
   * pause; the last node clears the session.
   */
  method Advance(s: Store, key: SessionKey, id: int, nodes: seq<NodeRow>, i: nat,
                 instance: string, phone: string, jitter: nat -> Jitter)
    requires i < |nodes| && !Stops(nodes[i])
    modifies s
    ensures ApplyWalk(s.State(), key, id, Walk(nodes, i + 1, instance, phone, jitter))
         == ApplyWalk(old(s.State()), key, id, Walk(nodes, i, instance, phone, jitter))
  {
    var node := nodes[i];
    if i < |nodes| - 1 {
      WalkStep(s.State(), key, id, nodes, i, instance, phone, jitter);
    }
    if node.nodeType == "message" {
      SendBotMessage(s, instance, phone, node);
      if i < |nodes| - 1 {
        s.sleeps := s.sleeps + [2000 + jitter(i)];
      }
    }
    if i == |nodes| - 1 {
      s.sessions := s.sessions - {key};
      ApplyNothing(s.State(), key, id);
    }
  }

  /** `processBotMessage`; `completed` is false where it throws, and then nothing has changed. */
  method ProcessBotMessage(s: Store, tenantId: int, instance: string, phone: string, text: string, jitter: nat -> Jitter)
    returns (completed: bool)
    modifies s
    ensures completed == Bot(old(s.State()), tenantId, instance, phone, text, jitter).Some?
    ensures completed ==> s.State() == Bot(old(s.State()), tenantId, instance, phone, text, jitter).value
    ensures !completed ==> s.State() == old(s.State())
  {
    var key := (tenantId, phone);
    var session := if key in s.sessions then Some(s.sessions[key]) else None;
    var start := Resolve(ActiveFlows(s.automations, s.nodes, tenantId), session, text);
    if start.NoFlow? {
      return true;
    }
    if start.Crash? || start.index < 0 {
      return false;
    }
    RunWalk(s, key, start.flow.automation.id, SortBy(start.flow.nodes, NodeOrder), start.index, instance, phone, jitter);
    return true;
  }

  // ---------------------------------------------------------------------------
  // messages.upsert and the route
  // ---------------------------------------------------------------------------

  ghost function TenantsOn(tenants: map<int, Tenant>, instance: string): set<int> {
    set id | id in tenants && tenants[id].waInstanceId == Some(instance)
  }

  /** Helper: a set of one element is that element. */
  lemma SingleMember(t: set<int>)
    requires |t| == 1
    ensures exists x :: t == {x}
  {
    if forall x :: x !in t {
      assert false;
    }
    var x :| x in t;
    assert |t - {x}| == 0;
    assert t == {x};
  }

  /** The tenant lookup `.eq('wa_instance_id', instance).single()`: a row only when exactly one tenant is on the instance. */
  ghost function TenantByInstance(tenants: map<int, Tenant>, instance: string): (r: Option<int>)
    ensures r.Some? <==> |TenantsOn(tenants, instance)| == 1
    ensures r.Some? ==> r.value in tenants && tenants[r.value].waInstanceId == Some(instance)
  {
    var ids := TenantsOn(tenants, instance);
    if |ids| == 1 then
      SingleMember(ids);
      var id :| id in ids;
      Some(id)
    else None
  }

  method FindTenant(s: Store, instance: string) returns (r: Option<int>)
    ensures r == TenantByInstance(s.tenants, instance)
  {
    var ids := set id | id in s.tenants && s.tenants[id].waInstanceId == Some(instance);
    assert ids == TenantsOn(s.tenants, instance);
    if |ids| == 1 {
      SingleMember(ids);
      var id :| id in ids;
      r := Some(id);
    } else {
      r := None;
    }
  }

  /** The store after messages `k..` of a `messages.upsert` event, and whether the route still replies (no throw). */
  ghost function Upserts(db: Db, instance: string, msgs: seq<Inbound>, k: nat, jitters: nat -> nat -> Jitter): (Db, bool)
    requires k <= |msgs|
    decreases |msgs| - k
  {
    if k == |msgs| then (db, true)
    else
      match Sender(msgs[k])
      case None => Upserts(db, instance, msgs, k + 1, jitters)
      case Some((phone, text)) =>
        match TenantByInstance(db.tenants, instance)
        case None => Upserts(db, instance, msgs, k + 1, jitters)
        case Some(tenantId) =>
          match Bot(db, tenantId, instance, phone, text, jitters(k))
          case None => (db, false)
          case Some(next) => Upserts(next, instance, msgs, k + 1, jitters)
  }

  /** Messages the bot skips (own, group, empty, unknown instance) leave the store as it was. */
  lemma {:induction false} SkippedMessagesChangeNothing(db: Db, instance: string, msgs: seq<Inbound>, k: nat, jitters: nat -> nat -> Jitter)
    requires k <= |msgs|
    requires forall j :: k <= j < |msgs| ==> Sender(msgs[j]).None? || TenantByInstance(db.tenants, instance).None?
    ensures Upserts(db, instance, msgs, k, jitters) == (db, true)
    decreases |msgs| - k
  {
    if k < |msgs| {
      SkippedMessagesChangeNothing(db, instance, msgs, k + 1, jitters);
    }
  }

  /** The loop of the `messages.upsert` branch; `replied` is false where the bot throws. */
  method HandleMessages(s: Store, instance: string, msgs: seq<Inbound>, jitters: nat -> nat -> Jitter) returns (replied: bool)
    modifies s
    ensures (s.State(), replied) == Upserts(old(s.State()), instance, msgs, 0, jitters)
  {
    var k := 0;
    while k < |msgs|
      invariant k <= |msgs|
      invariant Upserts(s.State(), instance, msgs, k, jitters) == Upserts(old(s.State()), instance, msgs, 0, jitters)
    {
      var thrown := HandleMessage(s, instance, msgs, k, jitters);
      if thrown {
        return false;
      }
      k := k + 1;
    }
    return true;
  }

  /** One message of the `messages.upsert` loop; `thrown` where the bot throws and the route stops. */
  method HandleMessage(s: Store, instance: string, msgs: seq<Inbound>, k: nat, jitters: nat -> nat -> Jitter) returns (thrown: bool)
    requires k < |msgs|
    modifies s
    ensures thrown ==> Upserts(old(s.State()), instance, msgs, k, jitters) == (s.State(), false)
    ensures !thrown ==> Upserts(s.State(), instance, msgs, k + 1, jitters) == Upserts(old(s.State()), instance, msgs, k, jitters)
  {
    thrown := false;
    var sender := Sender(msgs[k]);
    if sender.Some? {
      var tenant := FindTenant(s, instance);
      if tenant.Some? {
        var completed := ProcessBotMessage(s, tenant.value, instance, sender.value.0, sender.value.1, jitters(k));
        thrown := !completed;
      }
    }
  }

  /** The body of `POST /webhook/evolution`; the `data` of each event kind is its own field. */
  datatype Webhook = Webhook(
    event: Option<string>,
    instance: string,
    state: Option<string>,
    receipts: seq<Receipt>,
    messages: seq<Inbound>)

  /** The store after the route, and whether it replies `{ ok: true }` (false where it throws). */
  ghost function Handle(db: Db, hook: Webhook, jitters: nat -> nat -> Jitter): (Db, bool) {
    if !Truthy(hook.event) then (db, true)
    else if hook.event.value == "connection.update" then (db.(tenants := ConnectionUpdate(db.tenants, hook.instance, hook.state)), true)
    else if hook.event.value == "messages.update" then (AckAll(db, hook.receipts, 0), true)
    else if hook.event.value == "messages.upsert" then Upserts(db, hook.instance, hook.messages, 0, jitters)
    else (db, true)
  }

  /** Events other than the three the route knows change nothing and are acknowledged. */
  lemma OtherEventsIgnored(db: Db, hook: Webhook, jitters: nat -> nat -> Jitter)
    requires hook.event.None? || hook.event.value !in {"connection.update", "messages.update", "messages.upsert"}
    ensures Handle(db, hook, jitters) == (db, true)
  {
  }

  /** `POST /webhook/evolution`. */
  method HandleWebhook(s: Store, hook: Webhook, jitters: nat -> nat -> Jitter) returns (replied: bool)
    modifies s
    ensures (s.State(), replied) == Handle(old(s.State()), hook, jitters)
  {
    if !Truthy(hook.event) {
      return true;
    }
    var event := hook.event.value;
    if event == "connection.update" {
      s.tenants := ConnectionUpdate(s.tenants, hook.instance, hook.state);
    } else if event == "messages.update" {
      HandleReceipts(s, hook.receipts);
    } else if event == "messages.upsert" {
      replied := HandleMessages(s, hook.instance, hook.messages, jitters);
      return;
    }
    return true;
  }
}
