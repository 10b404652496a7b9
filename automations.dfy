/**
 * The automation routes (backend/src/routes/automations.js): validation of a
 * new automation, the mapping of its request nodes to stored node rows, and
 * the PATCH field set. The stored rows are exactly what the bot engine
 * (module Webhooks) walks.
 */
module Automations {
  import opened Wrappers
  import MenuOptions

  /** One node as the client sends it; `None` is a missing (or null) property. */
  datatype RequestNode = RequestNode(
    order: Option<int>,
    nodeType: Option<string>,
    content: Option<string>,
    mediaType: Option<string>,
    mediaUrl: Option<string>,
    mediaCaption: Option<string>,
    options: Option<seq<MenuOption>>,
    waitSeconds: Option<int>)

  type MenuOption = MenuOptions.MenuOption

  /** The body of `POST /api/automations`. */
  datatype CreateRequest = CreateRequest(
    name: Option<string>,
    triggerType: Option<string>,
    triggerKeywords: Option<seq<string>>,
    active: Option<bool>,
    nodes: Option<seq<RequestNode>>)

  /** A row of the `automations` table. */
  datatype Automation = Automation(
    id: int,
    tenantId: int,
    name: string,
    triggerType: string,
    triggerKeywords: seq<string>,
    active: bool,
    createdAt: int,
    updatedAt: int)

  /** A row of the `automation_nodes` table; `options` holds JSON text. */
  datatype NodeRow = NodeRow(
    automationId: int,
    tenantId: int,
    orderIndex: int,
    nodeType: string,
    content: Option<string>,
    mediaType: string,
    mediaUrl: Option<string>,
    mediaCaption: Option<string>,
    options: Option<string>,
    waitSeconds: int)

  datatype CreateResponse =
    | Rejected(status: int, message: string)
    | Created(automation: Automation, rows: seq<NodeRow>)

  /** The row stored for the request node at position `i`. */
  function NodeRowOf(n: RequestNode, i: int, automationId: int, tenantId: int): NodeRow {
    NodeRow(
      automationId, tenantId,
      if n.order.Some? then n.order.value else i,
      OrString(n.nodeType, "message"),
      OrNull(n.content),
      OrString(n.mediaType, "none"),
      OrNull(n.mediaUrl),
      OrNull(n.mediaCaption),
      if n.options.Some? then Some(MenuOptions.Encode(n.options.value)) else None,
      if n.waitSeconds.Some? then n.waitSeconds.value else 0)
  }

  /** `nodes.map((n, i) => ...)`: one row per request node, in request order. */
  function NodeRows(nodes: seq<RequestNode>, automationId: int, tenantId: int): (rows: seq<NodeRow>)
    ensures |rows| == |nodes|
    ensures forall i :: 0 <= i < |nodes| ==> rows[i] == NodeRowOf(nodes[i], i, automationId, tenantId)
  {
    if nodes == [] then []
    else NodeRows(nodes[..|nodes| - 1], automationId, tenantId)
         + [NodeRowOf(nodes[|nodes| - 1], |nodes| - 1, automationId, tenantId)]
  }

  /** Whether the request passes the three guards of the route. */
  predicate Acceptable(req: CreateRequest) {
    Truthy(req.name) && Truthy(req.triggerType) && req.nodes.Some? && req.nodes.value != []
  }

  /**
   * `POST /api/automations`. The store assigns the new `id` and `created_at`
   * (`newId`, `now`); `insertError` is the error of the automation insert, if
   * any, and `nodesStored` whether the node insert succeeds: its error is not
   * checked, so a failed node insert still answers 201, with no rows stored.
   */
  function CreateAutomation(req: CreateRequest, tenantId: int, newId: int, now: int,
                            insertError: Option<string>, nodesStored: bool): (r: CreateResponse)
    ensures r.Rejected? && r.status == 400 <==> !Acceptable(req)
    ensures r.Rejected? && r.status == 500 <==> Acceptable(req) && insertError.Some?
    ensures r.Created? <==> Acceptable(req) && insertError.None?
    ensures r.Created? ==>
      && r.automation.id == newId && r.automation.tenantId == tenantId
      && r.automation.name == req.name.value && r.automation.triggerType == req.triggerType.value
      && (nodesStored ==> r.rows == NodeRows(req.nodes.value, newId, tenantId) && |r.rows| == |req.nodes.value|)
      && (!nodesStored ==> r.rows == [])
      && forall row :: row in r.rows ==> row.automationId == newId && row.tenantId == tenantId
  {
    if !Truthy(req.name) then Rejected(400, "Nome obrigat\U{00F3}rio")
    else if !Truthy(req.triggerType) then Rejected(400, "trigger_type obrigat\U{00F3}rio")
    else if req.nodes.None? || req.nodes.value == [] then Rejected(400, "Ao menos um n\U{00F3} \U{00E9} necess\U{00E1}rio")
    else if insertError.Some? then Rejected(500, insertError.value)
    else
      var automation := Automation(newId, tenantId, req.name.value, req.triggerType.value,
                                   req.triggerKeywords.GetOr([]), req.active != Some(false), now, now);
      Created(automation, if nodesStored then NodeRows(req.nodes.value, newId, tenantId) else [])
  }

  /** A created automation is active unless the request says `active: false`, and has no keywords unless given. */
  lemma CreatedDefaults(req: CreateRequest, tenantId: int, newId: int, now: int, nodesStored: bool)
    requires Acceptable(req)
    ensures CreateAutomation(req, tenantId, newId, now, None, nodesStored).automation.active <==> req.active != Some(false)
    ensures req.triggerKeywords.None? ==> CreateAutomation(req, tenantId, newId, now, None, nodesStored).automation.triggerKeywords == []
    ensures req.triggerKeywords.Some? ==>
      CreateAutomation(req, tenantId, newId, now, None, nodesStored).automation.triggerKeywords == req.triggerKeywords.value
  {
  }

  /** Row `i` takes `order_index` from the node's `order`, else from its position. */
  lemma RowOrder(nodes: seq<RequestNode>, automationId: int, tenantId: int, i: int)
    requires 0 <= i < |nodes|
    ensures nodes[i].order.Some? ==> NodeRows(nodes, automationId, tenantId)[i].orderIndex == nodes[i].order.value
    ensures nodes[i].order.None? ==> NodeRows(nodes, automationId, tenantId)[i].orderIndex == i
  {
  }

  /** Clients that send no `order` get dense `order_index` values 0, 1, 2, ... */
  lemma RowsDenselyOrdered(nodes: seq<RequestNode>, automationId: int, tenantId: int)
    requires forall n :: n in nodes ==> n.order.None?
    ensures forall i :: 0 <= i < |nodes| ==> NodeRows(nodes, automationId, tenantId)[i].orderIndex == i
  {
  }

  /** The defaults of a stored node: type message, media type none, no wait, null for missing texts. */
  lemma RowDefaults(n: RequestNode, i: int, automationId: int, tenantId: int)
    ensures !Truthy(n.nodeType) ==> NodeRowOf(n, i, automationId, tenantId).nodeType == "message"
    ensures !Truthy(n.mediaType) ==> NodeRowOf(n, i, automationId, tenantId).mediaType == "none"
    ensures n.waitSeconds.None? ==> NodeRowOf(n, i, automationId, tenantId).waitSeconds == 0
    ensures !Truthy(n.content) ==> NodeRowOf(n, i, automationId, tenantId).content.None?
    ensures !Truthy(n.mediaUrl) ==> NodeRowOf(n, i, automationId, tenantId).mediaUrl.None?
    ensures !Truthy(n.mediaCaption) ==> NodeRowOf(n, i, automationId, tenantId).mediaCaption.None?
    ensures n.options.None? <==> NodeRowOf(n, i, automationId, tenantId).options.None?
  {
  }

  /** The stored options text parses back (as the bot parses it) to the options sent. */
  lemma StoredOptionsRoundTrip(n: RequestNode, i: int, automationId: int, tenantId: int)
    requires n.options.Some?
    ensures MenuOptions.Decode(NodeRowOf(n, i, automationId, tenantId).options.value) == n.options
  {
    MenuOptions.DecodeEncode(n.options.value);
  }

  /** Every stored options text is one the bot can parse. */
  predicate OptionsParse(row: NodeRow) {
    row.options.Some? ==> MenuOptions.Decode(row.options.value).Some?
  }

  lemma {:induction false} RowsOptionsParse(nodes: seq<RequestNode>, automationId: int, tenantId: int)
    ensures forall row :: row in NodeRows(nodes, automationId, tenantId) ==> OptionsParse(row)
  {
    var rows := NodeRows(nodes, automationId, tenantId);
    forall row | row in rows
      ensures OptionsParse(row)
    {
      var i :| 0 <= i < |rows| && rows[i] == row;
      if nodes[i].options.Some? {
        StoredOptionsRoundTrip(nodes[i], i, automationId, tenantId);
      }
    }
  }

  /** The body of `PATCH /api/automations/:id`; a missing property is not sent to the store. */
  datatype PatchRequest = PatchRequest(name: Option<string>, active: Option<bool>)

  /** `PATCH /api/automations/:id` applied to the stored row `a` on behalf of tenant `tenantId`. */
  function PatchAutomation(a: Automation, tenantId: int, req: PatchRequest, now: int): (r: Automation)
    ensures a.tenantId != tenantId ==> r == a
    ensures a.tenantId == tenantId ==>
      r == a.(name := req.name.GetOr(a.name), active := req.active.GetOr(a.active), updatedAt := now)
  {
    if a.tenantId != tenantId then a
    else a.(name := req.name.GetOr(a.name), active := req.active.GetOr(a.active), updatedAt := now)
  }

  /** PATCH never touches the trigger, the keywords, the owner or the creation time. */
  lemma PatchKeepsTrigger(a: Automation, tenantId: int, req: PatchRequest, now: int)
    ensures var r := PatchAutomation(a, tenantId, req, now);
      r.id == a.id && r.tenantId == a.tenantId && r.triggerType == a.triggerType
      && r.triggerKeywords == a.triggerKeywords && r.createdAt == a.createdAt
  {
  }
}
