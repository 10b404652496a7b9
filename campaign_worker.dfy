/**
 * The dispatch worker (backend/src/workers/campaignWorker.js): the sending
 * window, the human-like pacing and typing delays, the gateway requests made
 * for one contact, the `campaigns` job that walks a campaign's queued
 * contacts, and the scheduler tick that hands due campaigns to the queue.
 *
 * The clock, the random draws, the gateway's answers and the status writes
 * other requests make while a job runs are the job's environment (Env).
 */
module CampaignWorker {
  import opened Wrappers
  import opened Calendar
  import opened Store
  import PhoneFilter

  // ---------------------------------------------------------------------------
  // canSendNow
  // ---------------------------------------------------------------------------

  datatype TimeCheck = Allowed | Blocked(reason: string, waitMs: int)

  /** The sending window of a campaign at local time `t`. */
  function CanSendNow(sendOnWeekends: bool, startHour: int, endHour: int, t: Timestamp): TimeCheck {
    var dow := Weekday(DayOf(t));
    var hour := Hour(t);
    if !sendOnWeekends && (dow == 0 || dow == 6) then
      Blocked("weekend", (if dow == 0 then 1 else 2) * MillisPerDay)
    else if hour < startHour then
      Blocked("before_hours", ((startHour - hour) * 60 - Minute(t)) * MillisPerMinute)
    else if hour >= endHour then
      Blocked("after_hours", ((24 - hour + startHour) * 60 - Minute(t)) * MillisPerMinute)
    else Allowed
  }

  /** Sending is allowed exactly on permitted days inside `[startHour, endHour)`. */
  lemma AllowedIff(sendOnWeekends: bool, startHour: int, endHour: int, t: Timestamp)
    ensures CanSendNow(sendOnWeekends, startHour, endHour, t).Allowed? <==>
      (sendOnWeekends || (Weekday(DayOf(t)) != 0 && Weekday(DayOf(t)) != 6))
      && startHour <= Hour(t) < endHour
  {
  }

  /** A weekend block waits whole days from now and so resumes at the same time on a Monday. */
  lemma WeekendWaitEndsOnMonday(startHour: int, endHour: int, t: Timestamp)
    requires Weekday(DayOf(t)) == 0 || Weekday(DayOf(t)) == 6
    ensures var r := CanSendNow(false, startHour, endHour, t);
      && r.Blocked? && r.reason == "weekend"
      && r.waitMs % MillisPerMinute == 0
      && var resume := t + r.waitMs / MillisPerMinute;
         Weekday(DayOf(resume)) == 1 && MinuteOfDay(resume) == MinuteOfDay(t)
  {
    var days := if Weekday(DayOf(t)) == 0 then 1 else 2;
    var resume := t + days * MinutesPerDay;
    assert resume == Midnight(DayOf(t) + days) + MinuteOfDay(t);
    DayOfMidnightPlus(DayOf(t) + days, MinuteOfDay(t));
  }

  /** Before the window the wait ends at `startHour`:00 of the same day. */
  lemma BeforeHoursWait(sendOnWeekends: bool, startHour: int, endHour: int, t: Timestamp)
    requires sendOnWeekends || (Weekday(DayOf(t)) != 0 && Weekday(DayOf(t)) != 6)
    requires Hour(t) < startHour
    ensures var r := CanSendNow(sendOnWeekends, startHour, endHour, t);
      && r.Blocked? && r.reason == "before_hours" && r.waitMs > 0
      && r.waitMs == (Midnight(DayOf(t)) + startHour * 60 - t) * MillisPerMinute
  {
  }

  /** After the window the wait ends at `startHour`:00 of the next day. */
  lemma AfterHoursWait(sendOnWeekends: bool, startHour: int, endHour: int, t: Timestamp)
    requires sendOnWeekends || (Weekday(DayOf(t)) != 0 && Weekday(DayOf(t)) != 6)
    requires startHour <= Hour(t) && endHour <= Hour(t)
    ensures var r := CanSendNow(sendOnWeekends, startHour, endHour, t);
      && r.Blocked? && r.reason == "after_hours"
      && r.waitMs == (Midnight(DayOf(t) + 1) + startHour * 60 - t) * MillisPerMinute
  {
  }

  /** With a start hour of at least 0, every block asks for a positive wait. */
  lemma WaitsPositive(sendOnWeekends: bool, startHour: int, endHour: int, t: Timestamp)
    requires 0 <= startHour
    ensures var r := CanSendNow(sendOnWeekends, startHour, endHour, t);
      r.Blocked? ==> r.waitMs > 0
  {
  }

  // ---------------------------------------------------------------------------
  // humanDelay and simulateTyping
  // ---------------------------------------------------------------------------

  /** `Math.random()` in thousandths. */
  type Permille = x: int | 0 <= x < 1000
  /** `(Math.random() + Math.random() - 1) * 500`, in whole milliseconds. */
  type Noise = x: int | -500 < x < 500

  /** The random draws of one `humanDelay` call. */
  datatype Draw = Draw(spread: Permille, noise: Noise)

  /** `humanDelay(minS, maxS)`: the pause in milliseconds. */
  function HumanDelayMs(minS: int, maxS: int, d: Draw): int {
    var ms := minS * 1000 + d.spread * (maxS - minS) + d.noise;
    if ms < minS * 1000 then minS * 1000 else ms
  }

  /** Helper: a draw below 1000 scales a non-negative spread to less than its thousandfold. */
  lemma SpreadBound(spread: Permille, width: int)
    requires 0 <= width
    ensures 0 <= spread * width <= 999 * width
  {
  }

  /** The pause is at least `minS` seconds and, for `minS <= maxS`, under `maxS` seconds plus half a second. */
  lemma HumanDelayBounds(minS: int, maxS: int, d: Draw)
    ensures HumanDelayMs(minS, maxS, d) >= minS * 1000
    ensures minS <= maxS ==> HumanDelayMs(minS, maxS, d) < maxS * 1000 + 500
  {
    if minS <= maxS {
      SpreadBound(d.spread, maxS - minS);
    }
  }

  /** `chars / 3.3 * 1000` clamped to `[1000, 7000]`, in whole milliseconds. */
  function TypingMs(chars: nat): int {
    var ms := chars * 10000 / 33;
    if ms < 1000 then 1000 else if ms > 7000 then 7000 else ms
  }

  /** The typing pause lies in `[1000, 7000]`; short texts get the floor, long ones the ceiling. */
  lemma TypingMsBounds(chars: nat)
    ensures 1000 <= TypingMs(chars) <= 7000
    ensures chars <= 3 ==> TypingMs(chars) == 1000
    ensures chars >= 24 ==> TypingMs(chars) == 7000
    ensures 4 <= chars <= 23 ==> TypingMs(chars) == chars * 10000 / 33
  {
  }

  // ---------------------------------------------------------------------------
  // sendMessage
  // ---------------------------------------------------------------------------

  /** The fields of a contact a template can use. */
  function RecipientOf(c: Contact): PhoneFilter.Recipient {
    PhoneFilter.Recipient(c.name, c.phone, c.variables)
  }

  predicate IsMediaType(mediaType: string) {
    mediaType == "image" || mediaType == "video" || mediaType == "document"
  }

  /** The gateway requests `sendMessage` makes for one contact; the last one carries the message. */
  function DispatchCalls(instance: string, phone: string, camp: Campaign, r: PhoneFilter.Recipient): seq<GatewayCall> {
    var text := PhoneFilter.Interpolate(OrString(camp.messageText, ""), r);
    var caption := PhoneFilter.Interpolate(OrString(camp.mediaCaption, ""), r);
    if IsMediaType(camp.mediaType) then
      [SendMedia(instance, phone, camp.mediaType, if caption != [] then caption else text, camp.mediaUrl)]
    else
      (if camp.typingSimulation then [SendPresence(instance, phone, TypingMs(|text|))] else [])
      + [SendText(instance, phone, text)]
  }

  /** Image, video and document go out as one media request, captioned by the caption or else the text. */
  lemma MediaDispatch(instance: string, phone: string, camp: Campaign, r: PhoneFilter.Recipient)
    requires IsMediaType(camp.mediaType)
    ensures var text := PhoneFilter.Interpolate(OrString(camp.messageText, ""), r);
      var caption := PhoneFilter.Interpolate(OrString(camp.mediaCaption, ""), r);
      DispatchCalls(instance, phone, camp, r)
        == [SendMedia(instance, phone, camp.mediaType, if caption != [] then caption else text, camp.mediaUrl)]
  {
  }

  /**
   * Every other media type goes out as text to the same number, preceded by a
   * presence request of 1 to 7 seconds exactly when typing is simulated.
   */
  lemma TextDispatch(instance: string, phone: string, camp: Campaign, r: PhoneFilter.Recipient)
    requires !IsMediaType(camp.mediaType)
    ensures var calls := DispatchCalls(instance, phone, camp, r);
      var text := PhoneFilter.Interpolate(OrString(camp.messageText, ""), r);
      && |calls| == (if camp.typingSimulation then 2 else 1)
      && calls[|calls| - 1] == SendText(instance, phone, text)
      && (camp.typingSimulation ==>
            calls[0].SendPresence? && calls[0].number == phone && 1000 <= calls[0].ms <= 7000)
  {
    var text := PhoneFilter.Interpolate(OrString(camp.messageText, ""), r);
    TypingMsBounds(|text|);
  }

  // ---------------------------------------------------------------------------
  // The `campaigns` job
  // ---------------------------------------------------------------------------

  /** What the gateway answers to the message request of one contact. */
  datatype SendOutcome = Accepted(waId: Option<string>) | Refused(message: string)

  /**
   * The job's environment at contact `i`: a status another request writes to
   * the campaign just before the worker polls it, the clock, the gateway's
   * answer and the pacing draw.
   */
  datatype Env = Env(
    external: nat -> Option<CampaignStatus>,
    clock: nat -> Timestamp,
    gateway: nat -> SendOutcome,
    draws: nat -> Draw)

  /**
   * The job's campaign and tenant, the campaign as loaded, the gateway
   * instance, the fetched rows (positions in `rows`) and, for each, the
   * contact the fetch joined to it (`rec.contacts`), as it was at the fetch.
   */
  datatype Ctx = Ctx(campaignId: int, tenantId: int, camp: Campaign, instance: string,
                     pending: seq<nat>, joined: seq<Option<Contact>>)

  datatype StopReason = Completed | Halted | OutsideWindow(waitMs: int) | QuotaReached

  datatype StepResult = Next(db: Db, sent: nat, failed: nat) | Stop(db: Db, reason: StopReason)

  /** Where the loop ended: the store, the tallies, how many contacts it got through, and why it ended. */
  datatype Drained = Drained(db: Db, sent: nat, failed: nat, processed: nat, reason: StopReason)

  datatype JobError = NotFound | Suspended | Disconnected
  datatype JobOutcome = Error(error: JobError) | Finished(sent: nat, failed: nat)

  const InactiveContact: string := "Contato inativo ou descadastrado"

  /** The rows the job fetches: its campaign's queued rows. */
  predicate Fetchable(row: QueueRow, campaignId: int) {
    row.campaignId == campaignId && row.status == Queued
  }

  /** The positions among the first `n` rows of the fetchable ones, in `queued_at` (table) order. */
  function Pending(rows: seq<QueueRow>, campaignId: int, n: nat): (ix: seq<nat>)
    requires n <= |rows|
    ensures forall k :: 0 <= k < |ix| ==> ix[k] < n && Fetchable(rows[ix[k]], campaignId)
    ensures forall a, b :: 0 <= a < b < |ix| ==> ix[a] < ix[b]
    ensures forall j :: 0 <= j < n && Fetchable(rows[j], campaignId) ==> j in ix
  {
    if n == 0 then []
    else Pending(rows, campaignId, n - 1) + (if Fetchable(rows[n - 1], campaignId) then [n - 1] else [])
  }

  /** The contact joined to each fetched row. */
  function Joined(contacts: seq<Contact>, rows: seq<QueueRow>, pending: seq<nat>): (js: seq<Option<Contact>>)
    requires forall k :: 0 <= k < |pending| ==> pending[k] < |rows|
    ensures |js| == |pending|
  {
    seq(|pending|, k requires 0 <= k < |pending| => ContactById(contacts, rows[pending[k]].contactId))
  }

  predicate Wf(db: Db, ctx: Ctx) {
    && ctx.campaignId in db.campaigns
    && |ctx.joined| == |ctx.pending|
    && forall k :: 0 <= k < |ctx.pending| ==> ctx.pending[k] < |db.rows|
  }

  function SetStatus(db: Db, campaignId: int, st: CampaignStatus): Db
    requires campaignId in db.campaigns
  {
    db.(campaigns := db.campaigns[campaignId := db.campaigns[campaignId].(status := st)])
  }

  /** The progress write: the job's own tallies and the contacts left. */
  function Progress(db: Db, campaignId: int, sent: int, failed: int, left: int): Db
    requires campaignId in db.campaigns
  {
    db.(campaigns := db.campaigns[campaignId :=
      db.campaigns[campaignId].(contactsSent := sent, contactsFailed := failed, contactsPending := left)])
  }

  /** The final write of a job that got through every fetched contact. */
  function Finish(db: Db, campaignId: int, sent: int, failed: int): Db
    requires campaignId in db.campaigns
  {
    db.(campaigns := db.campaigns[campaignId := db.campaigns[campaignId].(
      status := Done, contactsSent := sent, contactsFailed := failed, contactsPending := 0)])
  }

  function SetRow(db: Db, p: nat, row: QueueRow): Db
    requires p < |db.rows|
  {
    db.(rows := db.rows[p := row])
  }

  /** The quota check: the tenant has used up its monthly messages. */
  predicate OverQuota(db: Db, tenantId: int) {
    tenantId in db.tenants && db.tenants[tenantId].messagesSentMonth >= db.tenants[tenantId].messagesLimitMonth
  }

  /** `increment_messages_sent`. */
  function CountMessage(db: Db, tenantId: int): Db {
    if tenantId in db.tenants then
      db.(tenants := db.tenants[tenantId := db.tenants[tenantId].(
        messagesSentMonth := db.tenants[tenantId].messagesSentMonth + 1)])
    else db
  }

  /** `camp.delay_min_seconds || 10` and `camp.delay_max_seconds || 30`. */
  function PacingMs(camp: Campaign, d: Draw): int {
    HumanDelayMs(if camp.delayMinSeconds == 0 then 10 else camp.delayMinSeconds,
                 if camp.delayMaxSeconds == 0 then 30 else camp.delayMaxSeconds, d)
  }

  /** The shortest pacing pause of a campaign, in milliseconds. */
  function MinPacingMs(camp: Campaign): int {
    (if camp.delayMinSeconds == 0 then 10 else camp.delayMinSeconds) * 1000
  }

  /** The outcome of the message request for contact `c` at row `p`, recorded in the row, the log and the tenant's usage. */
  function Record(db: Db, ctx: Ctx, p: nat, c: Contact, outcome: SendOutcome, sent: nat, failed: nat): (r: StepResult)
    requires Wf(db, ctx) && p < |db.rows|
    ensures r.Next? && Wf(r.db, ctx)
  {
    var row := db.rows[p];
    var cid := ctx.campaignId;
    match outcome
    case Accepted(waId) =>
      var db' := SetRow(db, p, row.(status := Sent, waMessageId := if waId.Some? then waId else row.waMessageId,
                                    attempts := row.attempts + 1));
      var db'' := db'.(logs := db'.logs + [MessageLog(ctx.tenantId, cid, c.id, c.phone, Sent, waId, None)]);
      Next(CountMessage(db'', ctx.tenantId), sent + 1, failed)
    case Refused(msg) =>
      var db' := SetRow(db, p, row.(status := Failed, errorMessage := Some(msg), attempts := row.attempts + 1));
      Next(db'.(logs := db'.logs + [MessageLog(ctx.tenantId, cid, c.id, c.phone, Failed, None, Some(msg))]),
           sent, failed + 1)
  }

  /** The status another request wrote before the poll, if any. */
  function Poll(db: Db, ctx: Ctx, i: nat, env: Env): Db
    requires ctx.campaignId in db.campaigns
  {
    if env.external(i).Some? then SetStatus(db, ctx.campaignId, env.external(i).value) else db
  }

  /** The poll stops the loop: the campaign reads paused or cancelled. */
  predicate Halts(db: Db, ctx: Ctx)
    requires ctx.campaignId in db.campaigns
  {
    db.campaigns[ctx.campaignId].status == Paused || db.campaigns[ctx.campaignId].status == Cancelled
  }

  /** The sending window at the turn's clock reading. */
  function Window(ctx: Ctx, env: Env, i: nat): TimeCheck {
    CanSendNow(ctx.camp.sendOnWeekends, ctx.camp.sendStartHour, ctx.camp.sendEndHour, env.clock(i))
  }

  /** Outside the window: the campaign is paused and the job re-enqueued after the wait. */
  function Reschedule(db: Db, ctx: Ctx, waitMs: int): Db
    requires ctx.campaignId in db.campaigns
  {
    var db' := SetStatus(db, ctx.campaignId, Paused);
    db'.(jobs := db'.jobs + [Job(ctx.campaignId, ctx.tenantId, waitMs, None)])
  }

  /** A joined contact that is sent to: present, active and not opted out. */
  predicate Sendable(c: Option<Contact>) {
    c.Some? && c.value.active && !c.value.optedOut
  }

  /** The row of a contact that is not sent to, marked failed. */
  function Skip(db: Db, p: nat): Db
    requires p < |db.rows|
  {
    SetRow(db, p, db.rows[p].(status := Failed, errorMessage := Some(InactiveContact)))
  }

  /** The quota stop: every 50th turn after the first, with the tenant at its monthly limit. */
  predicate QuotaStops(db: Db, ctx: Ctx, i: nat) {
    i > 0 && i % 50 == 0 && OverQuota(db, ctx.tenantId)
  }

  /** One turn of the loop, for the `i`-th fetched contact. */
  function Step(db: Db, ctx: Ctx, i: nat, sent: nat, failed: nat, env: Env): (r: StepResult)
    requires Wf(db, ctx) && i < |ctx.pending|
    ensures Wf(r.db, ctx)
  {
    var db1 := Poll(db, ctx, i, env);
    if Halts(db1, ctx) then Stop(db1, Halted) else Checked(db1, ctx, i, sent, failed, env)
  }

  /** The rest of a turn whose poll does not break the loop. */
  function Checked(db1: Db, ctx: Ctx, i: nat, sent: nat, failed: nat, env: Env): (r: StepResult)
    requires Wf(db1, ctx) && i < |ctx.pending|
    ensures Wf(r.db, ctx)
  {
    match Window(ctx, env, i)
    case Blocked(_, waitMs) => Stop(Reschedule(db1, ctx, waitMs), OutsideWindow(waitMs))
    case Allowed =>
      if !Sendable(ctx.joined[i]) then Next(Skip(db1, ctx.pending[i]), sent, failed + 1)
      else if QuotaStops(db1, ctx, i) then Stop(SetStatus(db1, ctx.campaignId, Paused), QuotaReached)
      else Deliver(db1, ctx, i, ctx.joined[i].value, sent, failed, env)
  }

  /** The contact's row marked sending, and the gateway requests of `sendMessage`. */
  function Dispatch(db: Db, ctx: Ctx, i: nat, c: Contact): (r: Db)
    requires Wf(db, ctx) && i < |ctx.pending|
    ensures Wf(r, ctx)
  {
    SetRow(db, ctx.pending[i], db.rows[ctx.pending[i]].(status := Sending))
      .(calls := db.calls + DispatchCalls(ctx.instance, c.phone, ctx.camp, RecipientOf(c)))
  }

  /** The send to an active contact: the requests, the recorded answer, the progress write and the pacing pause. */
  function Deliver(db: Db, ctx: Ctx, i: nat, c: Contact, sent: nat, failed: nat, env: Env): (r: StepResult)
    requires Wf(db, ctx) && i < |ctx.pending|
    ensures r.Next? && Wf(r.db, ctx)
  {
    var p := ctx.pending[i];
    var recorded := Record(Dispatch(db, ctx, i, c), ctx, p, c, env.gateway(i), sent, failed);
    var db3 := Progress(recorded.db, ctx.campaignId, recorded.sent, recorded.failed, |ctx.pending| - i - 1);
    if i < |ctx.pending| - 1 then
      Next(db3.(sleeps := db3.sleeps + [PacingMs(ctx.camp, env.draws(i))]), recorded.sent, recorded.failed)
    else Next(db3, recorded.sent, recorded.failed)
  }

  /** The loop from the `i`-th fetched contact on. */
  function Drain(db: Db, ctx: Ctx, i: nat, sent: nat, failed: nat, env: Env): (r: Drained)
    requires Wf(db, ctx) && i <= |ctx.pending|
    ensures Wf(r.db, ctx)
    decreases |ctx.pending| - i, 2
  {
    if i == |ctx.pending| then Drained(db, sent, failed, i, Completed)
    else Turn(db, ctx, i, sent, failed, env)
  }

  /** The `i`-th turn and, unless it breaks, the rest of the loop: first the poll. */
  function Turn(db: Db, ctx: Ctx, i: nat, sent: nat, failed: nat, env: Env): (r: Drained)
    requires Wf(db, ctx) && i < |ctx.pending|
    ensures Wf(r.db, ctx)
    decreases |ctx.pending| - i, 1
  {
    var db1 := Poll(db, ctx, i, env);
    if Halts(db1, ctx) then Drained(db1, sent, failed, i, Halted) else Resume(db1, ctx, i, sent, failed, env)
  }

  /** The rest of the `i`-th turn after a poll that does not break, and then the rest of the loop. */
  function Resume(db1: Db, ctx: Ctx, i: nat, sent: nat, failed: nat, env: Env): (r: Drained)
    requires Wf(db1, ctx) && i < |ctx.pending|
    ensures Wf(r.db, ctx)
    decreases |ctx.pending| - i, 0
  {
    match Checked(db1, ctx, i, sent, failed, env)
    case Stop(db', reason) => Drained(db', sent, failed, i, reason)
    case Next(db', sent', failed') => Drain(db', ctx, i + 1, sent', failed', env)
  }


  /**
   * One run of the job for `job` on the store `db`; `fallbackInstance` is
   * `instanceName(tenantId)`.
   */
  function RunSpec(db: Db, job: Job, fallbackInstance: string, env: Env): (r: (Db, JobOutcome))
  {
    var cid, tid := job.campaignId, job.tenantId;
    if cid !in db.campaigns || tid !in db.tenants then (db, Error(NotFound))
    else if db.tenants[tid].suspended then (SetStatus(db, cid, Paused), Error(Suspended))
    else if db.tenants[tid].waStatus != "connected" then (db, Error(Disconnected))
    else
      var pending := Pending(db.rows, cid, |db.rows|);
      if pending == [] then (SetStatus(db, cid, Done), Finished(0, 0))
      else
        var ctx := Ctx(cid, tid, db.campaigns[cid], OrString(db.tenants[tid].waInstanceId, fallbackInstance), pending,
                       Joined(db.contacts, db.rows, pending));
        var d := Drain(SetStatus(db, cid, Running), ctx, 0, 0, 0, env);
        if |pending| - d.sent - d.failed == 0 then (Finish(d.db, cid, d.sent, d.failed), Finished(d.sent, d.failed))
        else (d.db, Finished(d.sent, d.failed))
  }

  // ---------------------------------------------------------------------------
  // Properties of one turn of the loop
  // ---------------------------------------------------------------------------

  /** Fetched rows are visited in ascending table positions, so no row twice. */
  predicate Ascending(pending: seq<nat>) {
    forall a, b :: 0 <= a < b < |pending| ==> pending[a] < pending[b]
  }

  /** Helper: which of the five ways a turn ends, in terms of its pieces. */
  lemma StepCases(db: Db, ctx: Ctx, i: nat, sent: nat, failed: nat, env: Env)
    requires Wf(db, ctx) && i < |ctx.pending|
    ensures var r := Step(db, ctx, i, sent, failed, env);
      var db1 := Poll(db, ctx, i, env);
      var w := Window(ctx, env, i);
      var c := ctx.joined[i];
      && (Halts(db1, ctx) ==> r == Stop(db1, Halted))
      && (!Halts(db1, ctx) && w.Blocked? ==> r == Stop(Reschedule(db1, ctx, w.waitMs), OutsideWindow(w.waitMs)))
      && (!Halts(db1, ctx) && w.Allowed? && !Sendable(c) ==> r == Next(Skip(db1, ctx.pending[i]), sent, failed + 1))
      && (!Halts(db1, ctx) && w.Allowed? && Sendable(c) && QuotaStops(db1, ctx, i) ==>
            r == Stop(SetStatus(db1, ctx.campaignId, Paused), QuotaReached))
      && (!Halts(db1, ctx) && w.Allowed? && Sendable(c) && !QuotaStops(db1, ctx, i) ==>
            r == Deliver(db1, ctx, i, c.value, sent, failed, env))
  {
  }

  /** Helper: the poll writes at most the campaign's status. */
  lemma PollFacts(db: Db, ctx: Ctx, i: nat, env: Env)
    requires ctx.campaignId in db.campaigns
    ensures var db1 := Poll(db, ctx, i, env);
      && db1.rows == db.rows && db1.contacts == db.contacts && db1.logs == db.logs && db1.tenants == db.tenants
      && db1.calls == db.calls && db1.jobs == db.jobs && db1.sleeps == db.sleeps
      && db1.campaigns.Keys == db.campaigns.Keys
      && db1.campaigns[ctx.campaignId].status
         == (if env.external(i).Some? then env.external(i).value else db.campaigns[ctx.campaignId].status)
  {
  }

  /** Helper: what a send changes. */
  lemma DeliverFacts(db: Db, ctx: Ctx, i: nat, c: Contact, sent: nat, failed: nat, env: Env)
    requires Wf(db, ctx) && i < |ctx.pending|
    ensures var r := Deliver(db, ctx, i, c, sent, failed, env);
      var p := ctx.pending[i];
      && |r.db.rows| == |db.rows| && r.db.contacts == db.contacts && r.db.jobs == db.jobs
      && r.db.campaigns.Keys == db.campaigns.Keys
      && r.db.campaigns[ctx.campaignId].status == db.campaigns[ctx.campaignId].status
      && r.db.calls == db.calls + DispatchCalls(ctx.instance, c.phone, ctx.camp, RecipientOf(c))
      && (forall j :: 0 <= j < |db.rows| && j != p ==> r.db.rows[j] == db.rows[j])
      && r.sent + r.failed == sent + failed + 1
      && r.db.rows[p].attempts == db.rows[p].attempts + 1
      && |r.db.logs| == |db.logs| + 1
      && (env.gateway(i).Accepted? ==> r.db.rows[p].status == Sent && r.sent == sent + 1
                                       && r.db.logs[|db.logs|].status == Sent)
      && (env.gateway(i).Refused? ==> r.db.rows[p].status == Failed && r.failed == failed + 1
                                      && r.db.rows[p].errorMessage == Some(env.gateway(i).message)
                                      && r.db.logs[|db.logs|].status == Failed)
      && |db.sleeps| <= |r.db.sleeps| <= |db.sleeps| + 1
      && r.db.sleeps[..|db.sleeps|] == db.sleeps
      && (|r.db.sleeps| > |db.sleeps| ==>
            i < |ctx.pending| - 1 && r.db.sleeps[|db.sleeps|] == PacingMs(ctx.camp, env.draws(i)))
      && (i < |ctx.pending| - 1 ==> |r.db.sleeps| == |db.sleeps| + 1)
  {
    RecordRows(Dispatch(db, ctx, i, c), ctx, ctx.pending[i], c, env.gateway(i), sent, failed);
  }

  /** Helper: recording an answer changes only the contact's row, which ends sent or failed. */
  lemma RecordRows(db: Db, ctx: Ctx, p: nat, c: Contact, outcome: SendOutcome, sent: nat, failed: nat)
    requires Wf(db, ctx) && p < |db.rows|
    ensures var r := Record(db, ctx, p, c, outcome, sent, failed);
      && |r.db.rows| == |db.rows| && r.db.contacts == db.contacts && r.db.calls == db.calls
      && r.db.sleeps == db.sleeps && r.db.jobs == db.jobs
      && r.db.campaigns == db.campaigns
      && (forall j :: 0 <= j < |db.rows| && j != p ==> r.db.rows[j] == db.rows[j])
      && r.sent + r.failed == sent + failed + 1
      && r.db.rows[p].attempts == db.rows[p].attempts + 1
      && |r.db.logs| == |db.logs| + 1
      && (outcome.Accepted? ==> r.db.rows[p].status == Sent && r.sent == sent + 1
                                && r.db.logs[|db.logs|].status == Sent)
      && (outcome.Refused? ==> r.db.rows[p].status == Failed && r.failed == failed + 1
                               && r.db.rows[p].errorMessage == Some(outcome.message)
                               && r.db.logs[|db.logs|].status == Failed)
  {
  }

  /**
   * A turn touches only the row of its own contact, and only when it goes on:
   * that row then ends sent or failed and the tallies grow by one; a stop
   * leaves every row as it was.
   */
  lemma StepRows(db: Db, ctx: Ctx, i: nat, sent: nat, failed: nat, env: Env)
    requires Wf(db, ctx) && i < |ctx.pending|
    ensures var r := Step(db, ctx, i, sent, failed, env);
      && |r.db.rows| == |db.rows| && r.db.contacts == db.contacts
      && (forall j :: 0 <= j < |db.rows| && j != ctx.pending[i] ==> r.db.rows[j] == db.rows[j])
      && (r.Stop? ==> r.db.rows == db.rows && r.reason != Completed)
      && (r.Next? ==> r.sent + r.failed == sent + failed + 1
                      && r.db.rows[ctx.pending[i]].status in {Sent, Failed})
  {
    StepCases(db, ctx, i, sent, failed, env);
    PollFacts(db, ctx, i, env);
    var db1 := Poll(db, ctx, i, env);
    if !Halts(db1, ctx) && Window(ctx, env, i).Allowed? && Sendable(ctx.joined[i]) && !QuotaStops(db1, ctx, i) {
      DeliverFacts(db1, ctx, i, ctx.joined[i].value, sent, failed, env);
    }
  }

  /**
   * The campaign status after a turn: a poll that reads paused or cancelled
   * stops the loop, the other two stops write paused, and a going turn writes
   * no status; only a job re-enqueued for the sending window is added to the queue.
   */
  lemma StepStatus(db: Db, ctx: Ctx, i: nat, sent: nat, failed: nat, env: Env)
    requires Wf(db, ctx) && i < |ctx.pending|
    ensures var r := Step(db, ctx, i, sent, failed, env);
      var polled := if env.external(i).Some? then env.external(i).value else db.campaigns[ctx.campaignId].status;
      && (r.Stop? && r.reason == Halted <==> polled == Paused || polled == Cancelled)
      && (r.Stop? && r.reason != Halted ==> r.db.campaigns[ctx.campaignId].status == Paused)
      && (r.Next? ==> r.db.campaigns[ctx.campaignId].status == polled)
      && (r.Stop? && r.reason == Halted ==> r.db.campaigns[ctx.campaignId].status == polled)
      && r.db.jobs == db.jobs + (if r.Stop? && r.reason.OutsideWindow?
                                 then [Job(ctx.campaignId, ctx.tenantId, r.reason.waitMs, None)] else [])
  {
    StepCases(db, ctx, i, sent, failed, env);
    PollFacts(db, ctx, i, env);
    var db1 := Poll(db, ctx, i, env);
    if !Halts(db1, ctx) && Window(ctx, env, i).Allowed? && Sendable(ctx.joined[i]) && !QuotaStops(db1, ctx, i) {
      DeliverFacts(db1, ctx, i, ctx.joined[i].value, sent, failed, env);
    }
    if !Halts(db1, ctx) && Window(ctx, env, i).Allowed? {
      assert db.jobs + [] == db.jobs;
    }
  }

  /**
   * The window is checked with the campaign's own settings at the turn's clock
   * reading; a blocked window re-enqueues the job with the wait it computes.
   */
  lemma StepWindow(db: Db, ctx: Ctx, i: nat, sent: nat, failed: nat, env: Env)
    requires Wf(db, ctx) && i < |ctx.pending|
    ensures var r := Step(db, ctx, i, sent, failed, env);
      var check := CanSendNow(ctx.camp.sendOnWeekends, ctx.camp.sendStartHour, ctx.camp.sendEndHour, env.clock(i));
      && (r.Next? ==> check.Allowed?)
      && (r.Stop? && r.reason.OutsideWindow? <==> !(r.Stop? && r.reason == Halted) && check.Blocked?)
      && (r.Stop? && r.reason.OutsideWindow? ==> r.reason.waitMs == check.waitMs)
  {
    StepCases(db, ctx, i, sent, failed, env);
    var db1 := Poll(db, ctx, i, env);
    if !Halts(db1, ctx) && Window(ctx, env, i).Allowed? && Sendable(ctx.joined[i]) && !QuotaStops(db1, ctx, i) {
      DeliverFacts(db1, ctx, i, ctx.joined[i].value, sent, failed, env);
    }
  }

  /** The quota stop happens only at a positive multiple of 50, with the tenant's usage at its limit. */
  lemma StepQuota(db: Db, ctx: Ctx, i: nat, sent: nat, failed: nat, env: Env)
    requires Wf(db, ctx) && i < |ctx.pending|
    ensures var r := Step(db, ctx, i, sent, failed, env);
      r.Stop? && r.reason == QuotaReached ==> i > 0 && i % 50 == 0 && OverQuota(db, ctx.tenantId)
  {
    StepCases(db, ctx, i, sent, failed, env);
    PollFacts(db, ctx, i, env);
    var db1 := Poll(db, ctx, i, env);
    if !Halts(db1, ctx) && Window(ctx, env, i).Allowed? && Sendable(ctx.joined[i]) && !QuotaStops(db1, ctx, i) {
      DeliverFacts(db1, ctx, i, ctx.joined[i].value, sent, failed, env);
    }
  }

  /** The turn of the `i`-th contact pauses when it goes on: its contact is sent to and is not the last. */
  predicate Paced(ctx: Ctx, i: nat)
    requires i < |ctx.joined|
  {
    Sendable(ctx.joined[i]) && i < |ctx.pending| - 1
  }

  /**
   * Pacing: a turn waits once exactly when it goes on, its contact was sent
   * to and is not the last, and then at least the campaign's minimum delay.
   */
  lemma StepPacing(db: Db, ctx: Ctx, i: nat, sent: nat, failed: nat, env: Env)
    requires Wf(db, ctx) && i < |ctx.pending|
    ensures var r := Step(db, ctx, i, sent, failed, env);
      && |db.sleeps| <= |r.db.sleeps| <= |db.sleeps| + 1
      && r.db.sleeps[..|db.sleeps|] == db.sleeps
      && (|r.db.sleeps| > |db.sleeps| ==>
            r.Next? && Paced(ctx, i) && r.db.sleeps[|db.sleeps|] >= MinPacingMs(ctx.camp))
      && (r.Next? && Paced(ctx, i) ==> |r.db.sleeps| == |db.sleeps| + 1)
  {
    StepCases(db, ctx, i, sent, failed, env);
    PollFacts(db, ctx, i, env);
    var db1 := Poll(db, ctx, i, env);
    if !Halts(db1, ctx) && Window(ctx, env, i).Allowed? && Sendable(ctx.joined[i]) && !QuotaStops(db1, ctx, i) {
      DeliverFacts(db1, ctx, i, ctx.joined[i].value, sent, failed, env);
      var minS := if ctx.camp.delayMinSeconds == 0 then 10 else ctx.camp.delayMinSeconds;
      var maxS := if ctx.camp.delayMaxSeconds == 0 then 30 else ctx.camp.delayMaxSeconds;
      HumanDelayBounds(minS, maxS, env.draws(i));
    } else {
      assert db.sleeps[..|db.sleeps|] == db.sleeps;
    }
  }

  /**
   * A contact that is missing, inactive or opted out is marked failed with no
   * request, no log entry, no pause, no usage count and no progress write.
   */
  lemma StepSkipsInactive(db: Db, ctx: Ctx, i: nat, sent: nat, failed: nat, env: Env)
    requires Wf(db, ctx) && i < |ctx.pending|
    requires var c := ctx.joined[i];
      c.None? || !c.value.active || c.value.optedOut
    ensures var r := Step(db, ctx, i, sent, failed, env);
      && r.db.calls == db.calls && r.db.sleeps == db.sleeps && r.db.logs == db.logs
      && (r.Next? ==> r.db.rows[ctx.pending[i]].status == Failed
                      && r.db.rows[ctx.pending[i]].errorMessage == Some(InactiveContact)
                      && r.sent == sent && r.failed == failed + 1
                      && r.db.campaigns == Poll(db, ctx, i, env).campaigns
                      && r.db.tenants == db.tenants && r.db.jobs == db.jobs)
  {
    StepCases(db, ctx, i, sent, failed, env);
    PollFacts(db, ctx, i, env);
  }

  /**
   * A contact that is sent to gets exactly the requests of `sendMessage`, one
   * log entry with the gateway's answer, and a row that records it.
   */
  lemma StepSends(db: Db, ctx: Ctx, i: nat, sent: nat, failed: nat, env: Env)
    requires Wf(db, ctx) && i < |ctx.pending|
    ensures var r := Step(db, ctx, i, sent, failed, env);
      var p := ctx.pending[i];
      var c := ctx.joined[i];
      r.Next? && r.db.calls != db.calls ==>
        && c.Some?
        && r.db.calls == db.calls + DispatchCalls(ctx.instance, c.value.phone, ctx.camp, RecipientOf(c.value))
        && |r.db.logs| == |db.logs| + 1
        && r.db.rows[p].attempts == db.rows[p].attempts + 1
        && (env.gateway(i).Accepted? ==> r.db.rows[p].status == Sent && r.sent == sent + 1
                                         && r.db.logs[|db.logs|].status == Sent)
        && (env.gateway(i).Refused? ==> r.db.rows[p].status == Failed && r.failed == failed + 1
                                        && r.db.rows[p].errorMessage == Some(env.gateway(i).message)
                                        && r.db.logs[|db.logs|].status == Failed)
  {
    StepCases(db, ctx, i, sent, failed, env);
    PollFacts(db, ctx, i, env);
    var db1 := Poll(db, ctx, i, env);
    if !Halts(db1, ctx) && Window(ctx, env, i).Allowed? && Sendable(ctx.joined[i]) && !QuotaStops(db1, ctx, i) {
      DeliverFacts(db1, ctx, i, ctx.joined[i].value, sent, failed, env);
    }
  }

  // ---------------------------------------------------------------------------
  // Properties of the loop
  // ---------------------------------------------------------------------------

  /** Helper: one turn of the loop, in terms of `Step`. */
  lemma TurnNext(db: Db, ctx: Ctx, i: nat, sent: nat, failed: nat, env: Env)
    requires Wf(db, ctx) && i < |ctx.pending|
    ensures var step := Step(db, ctx, i, sent, failed, env);
      Turn(db, ctx, i, sent, failed, env)
        == if step.Stop? then Drained(step.db, sent, failed, i, step.reason)
           else Drain(step.db, ctx, i + 1, step.sent, step.failed, env)
  {
    var db1 := Poll(db, ctx, i, env);
    if !Halts(db1, ctx) {
      assert Turn(db, ctx, i, sent, failed, env) == Resume(db1, ctx, i, sent, failed, env);
    }
  }

  /** Helper: one unfolding of the loop, in terms of `Step`. */
  lemma DrainNext(db: Db, ctx: Ctx, i: nat, sent: nat, failed: nat, env: Env)
    requires Wf(db, ctx) && i < |ctx.pending|
    ensures var step := Step(db, ctx, i, sent, failed, env);
      Drain(db, ctx, i, sent, failed, env)
        == if step.Stop? then Drained(step.db, sent, failed, i, step.reason)
           else Drain(step.db, ctx, i + 1, step.sent, step.failed, env)
  {
    TurnNext(db, ctx, i, sent, failed, env);
    assert Drain(db, ctx, i, sent, failed, env) == Turn(db, ctx, i, sent, failed, env);
  }


  /** What a turn does to the rows and the tallies (the statement of `StepRows`, for a turn's result `step`). */
  predicate TurnRows(db: Db, ctx: Ctx, i: nat, sent: nat, failed: nat, step: StepResult)
    requires i < |ctx.pending|
  {
    && |step.db.rows| == |db.rows| && step.db.contacts == db.contacts
    && (forall j :: 0 <= j < |db.rows| && j != ctx.pending[i] ==> step.db.rows[j] == db.rows[j])
    && (step.Stop? ==> step.db.rows == db.rows && step.reason != Completed)
    && (step.Next? ==> step.sent + step.failed == sent + failed + 1
                       && ctx.pending[i] < |step.db.rows|
                       && step.db.rows[ctx.pending[i]].status in {Sent, Failed})
  }

  /** What a turn does to the campaign status and the queue (the statement of `StepStatus`). */
  predicate TurnStatus(db: Db, ctx: Ctx, i: nat, env: Env, step: StepResult)
    requires ctx.campaignId in db.campaigns && ctx.campaignId in step.db.campaigns
  {
    var polled := if env.external(i).Some? then env.external(i).value else db.campaigns[ctx.campaignId].status;
    && (step.Stop? && step.reason == Halted <==> polled == Paused || polled == Cancelled)
    && (step.Stop? && step.reason != Halted ==> step.db.campaigns[ctx.campaignId].status == Paused)
    && (step.Next? ==> step.db.campaigns[ctx.campaignId].status == polled)
    && (step.Stop? && step.reason == Halted ==> step.db.campaigns[ctx.campaignId].status == polled)
    && step.db.jobs == db.jobs + (if step.Stop? && step.reason.OutsideWindow?
                                  then [Job(ctx.campaignId, ctx.tenantId, step.reason.waitMs, None)] else [])
  }

  /**
   * Helper: a turn of the loop as its result `step`, with what the turn
   * lemmas say about it, so that the loop's lemmas need not unfold `Step`.
   */
  lemma TurnStep(db: Db, ctx: Ctx, i: nat, sent: nat, failed: nat, env: Env) returns (step: StepResult)
    requires Wf(db, ctx) && i < |ctx.pending|
    ensures Wf(step.db, ctx)
    ensures Turn(db, ctx, i, sent, failed, env)
      == if step.Stop? then Drained(step.db, sent, failed, i, step.reason)
         else Drain(step.db, ctx, i + 1, step.sent, step.failed, env)
    ensures TurnRows(db, ctx, i, sent, failed, step)
    ensures TurnStatus(db, ctx, i, env, step)
    ensures PausesAtLeast(db.sleeps, step.db.sleeps, MinPacingMs(ctx.camp))
    ensures |step.db.sleeps| == |db.sleeps| + (if step.Next? && Paced(ctx, i) then 1 else 0)
  {
    step := Step(db, ctx, i, sent, failed, env);
    TurnNext(db, ctx, i, sent, failed, env);
    StepRows(db, ctx, i, sent, failed, env);
    StepStatus(db, ctx, i, sent, failed, env);
    StepPacing(db, ctx, i, sent, failed, env);
  }

  /**
   * The loop gets through a prefix of the fetched contacts, each counted once
   * in the tallies, and completes exactly when the prefix is all of them.
   */
  lemma {:induction false} DrainCounts(db: Db, ctx: Ctx, i: nat, sent: nat, failed: nat, env: Env)
    requires Wf(db, ctx) && i <= |ctx.pending|
    ensures var r := Drain(db, ctx, i, sent, failed, env);
      && i <= r.processed <= |ctx.pending|
      && r.sent + r.failed == sent + failed + (r.processed - i)
      && (r.reason == Completed <==> r.processed == |ctx.pending|)
      && |r.db.rows| == |db.rows| && r.db.contacts == db.contacts
    decreases |ctx.pending| - i
  {
    if i < |ctx.pending| {
      var step := TurnStep(db, ctx, i, sent, failed, env);
      if step.Next? {
        DrainCounts(step.db, ctx, i + 1, step.sent, step.failed, env);
      }
    }
  }

  /** Helper: the fetched positions other than the `i`-th differ from it. */
  lemma AscendingDistinct(pending: seq<nat>, i: nat)
    requires Ascending(pending) && i < |pending|
    ensures forall k :: 0 <= k < |pending| && k != i ==> pending[k] != pending[i]
  {
    forall k | 0 <= k < |pending| && k != i
      ensures pending[k] != pending[i]
    {
      if k < i { assert pending[k] < pending[i]; } else { assert pending[i] < pending[k]; }
    }
  }

  /**
   * `after` is `before` with the fetched rows `from` to `to - 1` ended sent or
   * failed, and every other row, fetched or not, as it was.
   */
  predicate Progressed(before: seq<QueueRow>, after: seq<QueueRow>, pending: seq<nat>, from: nat, to: nat) {
    && from <= to <= |pending| && |after| == |before|
    && (forall k :: 0 <= k < |pending| ==> pending[k] < |before|)
    && (forall k :: 0 <= k < from ==> after[pending[k]] == before[pending[k]])
    && (forall k :: to <= k < |pending| ==> after[pending[k]] == before[pending[k]])
    && (forall k :: from <= k < to ==> after[pending[k]].status in {Sent, Failed})
    && (forall j :: 0 <= j < |before| && j !in pending ==> after[j] == before[j])
  }

  /** Helper: a turn that ends its contact's row, followed by progress from the next contact on. */
  lemma ProgressedStep(rows0: seq<QueueRow>, rows1: seq<QueueRow>, rows2: seq<QueueRow>,
                       pending: seq<nat>, i: nat, to: nat)
    requires Ascending(pending) && i < |pending| && |rows1| == |rows0|
    requires forall j :: 0 <= j < |rows0| && j != pending[i] ==> rows1[j] == rows0[j]
    requires pending[i] < |rows1| && rows1[pending[i]].status in {Sent, Failed}
    requires Progressed(rows1, rows2, pending, i + 1, to)
    ensures Progressed(rows0, rows2, pending, i, to)
  {
    AscendingDistinct(pending, i);
    forall j | 0 <= j < |rows0| && j !in pending
      ensures rows2[j] == rows0[j]
    {
      assert j != pending[i];
    }
  }

  /**
   * Each fetched contact the loop gets through ends sent or failed; the
   * fetched rows before and after them and every row not fetched are left as
   * they were.
   */
  lemma {:induction false} DrainRows(db: Db, ctx: Ctx, i: nat, sent: nat, failed: nat, env: Env)
    requires Wf(db, ctx) && i <= |ctx.pending| && Ascending(ctx.pending)
    ensures var r := Drain(db, ctx, i, sent, failed, env);
      Progressed(db.rows, r.db.rows, ctx.pending, i, r.processed)
    decreases |ctx.pending| - i
  {
    var r := Drain(db, ctx, i, sent, failed, env);
    if i < |ctx.pending| {
      var step := TurnStep(db, ctx, i, sent, failed, env);
      if step.Next? {
        DrainRows(step.db, ctx, i + 1, step.sent, step.failed, env);
        assert r == Drain(step.db, ctx, i + 1, step.sent, step.failed, env);
        ProgressedStep(db.rows, step.db.rows, r.db.rows, ctx.pending, i, r.processed);
      } else {
        ProgressedNone(db.rows, ctx.pending, i);
      }
    } else {
      ProgressedNone(db.rows, ctx.pending, i);
    }
  }

  /** Helper: no progress at all. */
  lemma ProgressedNone(rows: seq<QueueRow>, pending: seq<nat>, i: nat)
    requires i <= |pending| && forall k :: 0 <= k < |pending| ==> pending[k] < |rows|
    ensures Progressed(rows, rows, pending, i, i)
  {
  }

  /** Jobs added by the loop: only the re-enqueue of a blocked window, with its wait. */
  lemma {:induction false} DrainJobs(db: Db, ctx: Ctx, i: nat, sent: nat, failed: nat, env: Env)
    requires Wf(db, ctx) && i <= |ctx.pending|
    ensures var r := Drain(db, ctx, i, sent, failed, env);
      r.db.jobs == db.jobs + (if r.reason.OutsideWindow?
                              then [Job(ctx.campaignId, ctx.tenantId, r.reason.waitMs, None)] else [])
    decreases |ctx.pending| - i
  {
    if i < |ctx.pending| {
      var step := TurnStep(db, ctx, i, sent, failed, env);
      if step.Next? {
        DrainJobs(step.db, ctx, i + 1, step.sent, step.failed, env);
      }
    } else {
      assert db.jobs + [] == db.jobs;
    }
  }

  /** `after` extends `before` with pauses of at least `least` milliseconds each. */
  predicate PausesAtLeast(before: seq<int>, after: seq<int>, least: int) {
    && |before| <= |after| && after[..|before|] == before
    && forall k :: |before| <= k < |after| ==> after[k] >= least
  }

  /** Helper: extensions with long enough pauses compose. */
  lemma PausesAtLeastTrans(a: seq<int>, b: seq<int>, c: seq<int>, least: int)
    requires PausesAtLeast(a, b, least) && PausesAtLeast(b, c, least)
    ensures PausesAtLeast(a, c, least)
  {
    assert c[..|a|] == c[..|b|][..|a|];
  }

  /** How many of the contacts `from` to `to - 1` are sent to. */
  function CountSendable(joined: seq<Option<Contact>>, from: nat, to: nat): nat
    decreases to - from
  {
    if from >= to || from >= |joined| then 0
    else (if Sendable(joined[from]) then 1 else 0) + CountSendable(joined, from + 1, to)
  }

  /**
   * The pauses the loop adds: one per contact it gets through and sends to,
   * except after the last fetched contact.
   */
  predicate PausesCounted(ctx: Ctx, i: nat, before: seq<int>, r: Drained)
    requires |ctx.joined| == |ctx.pending|
  {
    && i <= r.processed <= |ctx.pending|
    && |r.db.sleeps| + (if r.processed == |ctx.pending| && i < r.processed && Sendable(ctx.joined[|ctx.pending| - 1])
                        then 1 else 0)
       == |before| + CountSendable(ctx.joined, i, r.processed)
  }

  /**
   * Every pacing pause of the loop lasts at least the campaign's minimum
   * delay, and the loop pauses once after each contact it sends to, except
   * the last fetched one.
   */
  lemma {:induction false} DrainPacing(db: Db, ctx: Ctx, i: nat, sent: nat, failed: nat, env: Env)
    requires Wf(db, ctx) && i <= |ctx.pending|
    ensures PausesAtLeast(db.sleeps, Drain(db, ctx, i, sent, failed, env).db.sleeps, MinPacingMs(ctx.camp))
    ensures PausesCounted(ctx, i, db.sleeps, Drain(db, ctx, i, sent, failed, env))
    decreases |ctx.pending| - i
  {
    if i < |ctx.pending| {
      var step := TurnStep(db, ctx, i, sent, failed, env);
      if step.Next? {
        DrainPacing(step.db, ctx, i + 1, step.sent, step.failed, env);
        PausesAtLeastTrans(db.sleeps, step.db.sleeps, Drain(db, ctx, i, sent, failed, env).db.sleeps, MinPacingMs(ctx.camp));
      } else {
        assert |step.db.sleeps| == |db.sleeps|;
      }
    } else {
      assert db.sleeps[..|db.sleeps|] == db.sleeps;
    }
  }

  /** The status a stop leaves: paused after a window or quota stop, paused or cancelled after a poll stop. */
  lemma {:induction false} DrainStopStatus(db: Db, ctx: Ctx, i: nat, sent: nat, failed: nat, env: Env)
    requires Wf(db, ctx) && i <= |ctx.pending|
    ensures var r := Drain(db, ctx, i, sent, failed, env);
      var st := r.db.campaigns[ctx.campaignId].status;
      && (r.reason.OutsideWindow? || r.reason == QuotaReached ==> st == Paused)
      && (r.reason == Halted ==> st == Paused || st == Cancelled)
    decreases |ctx.pending| - i
  {
    if i < |ctx.pending| {
      var step := TurnStep(db, ctx, i, sent, failed, env);
      if step.Next? {
        DrainStopStatus(step.db, ctx, i + 1, step.sent, step.failed, env);
      }
    }
  }

  /** The loop never leaves the campaign done when it was not done before and no other request writes done. */
  lemma {:induction false} DrainNeverDone(db: Db, ctx: Ctx, i: nat, sent: nat, failed: nat, env: Env)
    requires Wf(db, ctx) && i <= |ctx.pending|
    requires forall n: nat :: env.external(n) != Some(Done)
    requires db.campaigns[ctx.campaignId].status != Done
    ensures Drain(db, ctx, i, sent, failed, env).db.campaigns[ctx.campaignId].status != Done
    decreases |ctx.pending| - i
  {
    if i < |ctx.pending| {
      assert env.external(i) != Some(Done);
      var step := TurnStep(db, ctx, i, sent, failed, env);
      assert Drain(db, ctx, i, sent, failed, env) == Turn(db, ctx, i, sent, failed, env);
      assert step.db.campaigns[ctx.campaignId].status != Done;
      if step.Next? {
        DrainNeverDone(step.db, ctx, i + 1, step.sent, step.failed, env);
      }
    }
  }

  // ---------------------------------------------------------------------------
  // Properties of a run of the job
  // ---------------------------------------------------------------------------

  /**
   * A missing campaign or tenant, a suspended tenant or a disconnected
   * WhatsApp fail the job before any contact is touched; only the suspension
   * writes, pausing the campaign.
   */
  lemma RunRefusals(db: Db, job: Job, fallbackInstance: string, env: Env)
    ensures var r := RunSpec(db, job, fallbackInstance, env);
      var cid, tid := job.campaignId, job.tenantId;
      && (r.1 == Error(NotFound) <==> cid !in db.campaigns || tid !in db.tenants)
      && (r.1 == Error(Suspended) <==> cid in db.campaigns && tid in db.tenants && db.tenants[tid].suspended)
      && (r.1 == Error(Disconnected) <==>
            cid in db.campaigns && tid in db.tenants && !db.tenants[tid].suspended
            && db.tenants[tid].waStatus != "connected")
      && (r.1 == Error(Suspended) ==> r.0 == SetStatus(db, cid, Paused))
      && (r.1 == Error(NotFound) || r.1 == Error(Disconnected) ==> r.0 == db)
  {
  }

  /** The fetched rows of a run: exactly the campaign's queued rows, in table order. */
  lemma FetchedRows(rows: seq<QueueRow>, campaignId: int)
    ensures var pending := Pending(rows, campaignId, |rows|);
      && Ascending(pending)
      && forall j :: 0 <= j < |rows| ==> (j in pending <==> Fetchable(rows[j], campaignId))
  {
  }

  /**
   * A run never touches a row that is not one of its campaign's queued rows,
   * so a rerun never sends again to a contact already sent or failed; every
   * fetched row ends sent, failed, or still queued.
   */
  lemma RunNeverResends(db: Db, job: Job, fallbackInstance: string, env: Env)
    ensures var r := RunSpec(db, job, fallbackInstance, env);
      && |r.0.rows| == |db.rows|
      && (forall j :: 0 <= j < |db.rows| && !Fetchable(db.rows[j], job.campaignId) ==> r.0.rows[j] == db.rows[j])
      && (forall j :: 0 <= j < |db.rows| && Fetchable(db.rows[j], job.campaignId) ==>
            r.0.rows[j].status in {Queued, Sent, Failed})
  {
    var cid, tid := job.campaignId, job.tenantId;
    if cid in db.campaigns && tid in db.tenants && !db.tenants[tid].suspended && db.tenants[tid].waStatus == "connected" {
      var pending := Pending(db.rows, cid, |db.rows|);
      FetchedRows(db.rows, cid);
      if pending != [] {
        var ctx := Ctx(cid, tid, db.campaigns[cid], OrString(db.tenants[tid].waInstanceId, fallbackInstance), pending,
                       Joined(db.contacts, db.rows, pending));
        var db1 := SetStatus(db, cid, Running);
        DrainRows(db1, ctx, 0, 0, 0, env);
        var d := Drain(db1, ctx, 0, 0, 0, env);
        ProgressedKeeps(db.rows, d.db.rows, pending, d.processed, cid);
      }
    }
  }

  /** Helper: progress over the fetched rows keeps every other row and ends none of them elsewhere. */
  lemma ProgressedKeeps(before: seq<QueueRow>, after: seq<QueueRow>, pending: seq<nat>, to: nat, cid: int)
    requires Progressed(before, after, pending, 0, to)
    requires forall j :: 0 <= j < |before| ==> (j in pending <==> Fetchable(before[j], cid))
    ensures forall j :: 0 <= j < |before| && !Fetchable(before[j], cid) ==> after[j] == before[j]
    ensures forall j :: 0 <= j < |before| && Fetchable(before[j], cid) ==> after[j].status in {Queued, Sent, Failed}
  {
    forall j | 0 <= j < |before| && Fetchable(before[j], cid)
      ensures after[j].status in {Queued, Sent, Failed}
    {
      var k :| 0 <= k < |pending| && pending[k] == j;
      if k >= to {
        assert after[pending[k]] == before[pending[k]];
      }
    }
  }

  /**
   * With no other request writing done, a run that gets to its loop leaves
   * the campaign done exactly when every fetched contact was sent or failed,
   * and then the counters are the run's own tallies.
   */
  lemma RunDone(db: Db, job: Job, fallbackInstance: string, env: Env)
    requires forall n: nat :: env.external(n) != Some(Done)
    ensures var r := RunSpec(db, job, fallbackInstance, env);
      var pending := Pending(db.rows, job.campaignId, |db.rows|);
      r.1.Finished? ==>
        && (r.0.campaigns[job.campaignId].status == Done <==> r.1.sent + r.1.failed == |pending|)
        && (pending != [] && r.0.campaigns[job.campaignId].status == Done ==>
              && r.0.campaigns[job.campaignId].contactsSent == r.1.sent
              && r.0.campaigns[job.campaignId].contactsFailed == r.1.failed
              && r.0.campaigns[job.campaignId].contactsPending == 0)
  {
    var cid, tid := job.campaignId, job.tenantId;
    if cid in db.campaigns && tid in db.tenants && !db.tenants[tid].suspended && db.tenants[tid].waStatus == "connected" {
      var pending := Pending(db.rows, cid, |db.rows|);
      FetchedRows(db.rows, cid);
      if pending != [] {
        var ctx := Ctx(cid, tid, db.campaigns[cid], OrString(db.tenants[tid].waInstanceId, fallbackInstance), pending,
                       Joined(db.contacts, db.rows, pending));
        var db1 := SetStatus(db, cid, Running);
        DrainCounts(db1, ctx, 0, 0, 0, env);
        DrainNeverDone(db1, ctx, 0, 0, 0, env);
      }
    }
  }

  /**
   * A run adds at most one job to the queue: the same campaign and tenant,
   * without priority, with the campaign left paused and not done.
   */
  lemma RunJobs(db: Db, job: Job, fallbackInstance: string, env: Env)
    ensures var r := RunSpec(db, job, fallbackInstance, env);
      && |db.jobs| <= |r.0.jobs| <= |db.jobs| + 1 && r.0.jobs[..|db.jobs|] == db.jobs
      && (|r.0.jobs| > |db.jobs| ==>
            && r.0.jobs[|db.jobs|].campaignId == job.campaignId
            && r.0.jobs[|db.jobs|].tenantId == job.tenantId
            && r.0.jobs[|db.jobs|].priority.None?
            && r.0.campaigns[job.campaignId].status == Paused)
  {
    var cid, tid := job.campaignId, job.tenantId;
    if cid in db.campaigns && tid in db.tenants && !db.tenants[tid].suspended && db.tenants[tid].waStatus == "connected" {
      var pending := Pending(db.rows, cid, |db.rows|);
      FetchedRows(db.rows, cid);
      if pending != [] {
        var ctx := Ctx(cid, tid, db.campaigns[cid], OrString(db.tenants[tid].waInstanceId, fallbackInstance), pending,
                       Joined(db.contacts, db.rows, pending));
        var db1 := SetStatus(db, cid, Running);
        DrainCounts(db1, ctx, 0, 0, 0, env);
        DrainJobs(db1, ctx, 0, 0, 0, env);
        var d := Drain(db1, ctx, 0, 0, 0, env);
        var r := RunSpec(db, job, fallbackInstance, env);
        if |pending| - d.sent - d.failed == 0 {
          assert r.0 == Finish(d.db, cid, d.sent, d.failed);
          assert !d.reason.OutsideWindow?;
        } else {
          assert r.0 == d.db;
          DrainStopStatus(db1, ctx, 0, 0, 0, env);
        }
      }
    }
  }

  /**
   * Every pacing pause of a run lasts at least the loaded campaign's minimum
   * delay; a run pauses once after each contact it gets through and sends
   * to, except the last fetched one, and a run that never reaches the loop
   * does not pause.
   */
  lemma RunPacing(db: Db, job: Job, fallbackInstance: string, env: Env)
    requires job.campaignId in db.campaigns
    ensures PausesAtLeast(db.sleeps, RunSpec(db, job, fallbackInstance, env).0.sleeps,
                          MinPacingMs(db.campaigns[job.campaignId]))
    ensures var r := RunSpec(db, job, fallbackInstance, env);
      var pending := Pending(db.rows, job.campaignId, |db.rows|);
      var joined := Joined(db.contacts, db.rows, pending);
      var n := if r.1.Finished? then r.1.sent + r.1.failed else 0;
      && (r.1.Error? || pending == [] ==> r.0.sleeps == db.sleeps)
      && (r.1.Finished? && pending != [] ==>
            && n <= |pending|
            && |r.0.sleeps| + (if n == |pending| && Sendable(joined[n - 1]) then 1 else 0)
               == |db.sleeps| + CountSendable(joined, 0, n))
  {
    var cid, tid := job.campaignId, job.tenantId;
    if tid in db.tenants && !db.tenants[tid].suspended && db.tenants[tid].waStatus == "connected" {
      var pending := Pending(db.rows, cid, |db.rows|);
      FetchedRows(db.rows, cid);
      if pending != [] {
        var ctx := Ctx(cid, tid, db.campaigns[cid], OrString(db.tenants[tid].waInstanceId, fallbackInstance), pending,
                       Joined(db.contacts, db.rows, pending));
        var db1 := SetStatus(db, cid, Running);
        DrainPacing(db1, ctx, 0, 0, 0, env);
        DrainCounts(db1, ctx, 0, 0, 0, env);
      }
    }
    assert db.sleeps[..|db.sleeps|] == db.sleeps;
  }

  // ---------------------------------------------------------------------------
  // The job on the store
  // ---------------------------------------------------------------------------

  /** The row update, log entry and usage count for the gateway's answer, on the store. */
  method RecordAnswer(s: Store, ctx: Ctx, p: nat, c: Contact, outcome: SendOutcome, sent: nat, failed: nat)
    returns (sent': nat, failed': nat)
    requires Wf(s.State(), ctx) && p < |s.rows|
    modifies s
    ensures var r := Record(old(s.State()), ctx, p, c, outcome, sent, failed);
      s.State() == r.db && sent' == r.sent && failed' == r.failed
  {
    var cid, tid := ctx.campaignId, ctx.tenantId;
    var row := s.rows[p];
    match outcome {
      case Accepted(waId) =>
        s.rows := s.rows[p := row.(status := Sent, waMessageId := if waId.Some? then waId else row.waMessageId,
                                   attempts := row.attempts + 1)];
        s.logs := s.logs + [MessageLog(tid, cid, c.id, c.phone, Sent, waId, None)];
        if tid in s.tenants {
          s.tenants := s.tenants[tid := s.tenants[tid].(messagesSentMonth := s.tenants[tid].messagesSentMonth + 1)];
        }
        sent', failed' := sent + 1, failed;
      case Refused(msg) =>
        s.rows := s.rows[p := row.(status := Failed, errorMessage := Some(msg), attempts := row.attempts + 1)];
        s.logs := s.logs + [MessageLog(tid, cid, c.id, c.phone, Failed, None, Some(msg))];
        sent', failed' := sent, failed + 1;
    }
  }

  /** The send to an active contact, on the store. */
  method DeliverTo(s: Store, ctx: Ctx, i: nat, c: Contact, sent: nat, failed: nat, env: Env)
    returns (sent': nat, failed': nat)
    requires Wf(s.State(), ctx) && i < |ctx.pending|
    modifies s
    ensures var r := Deliver(old(s.State()), ctx, i, c, sent, failed, env);
      s.State() == r.db && sent' == r.sent && failed' == r.failed
  {
    var cid, p := ctx.campaignId, ctx.pending[i];
    DispatchTo(s, ctx, i, c);
    sent', failed' := RecordAnswer(s, ctx, p, c, env.gateway(i), sent, failed);
    WriteProgress(s, cid, sent', failed', |ctx.pending| - i - 1);
    if i < |ctx.pending| - 1 {
      s.sleeps := s.sleeps + [PacingMs(ctx.camp, env.draws(i))];
    }
  }

  /** The row marked `sending`, then the requests to the gateway. */
  method DispatchTo(s: Store, ctx: Ctx, i: nat, c: Contact)
    requires Wf(s.State(), ctx) && i < |ctx.pending|
    modifies s
    ensures s.State() == Dispatch(old(s.State()), ctx, i, c)
  {
    var p := ctx.pending[i];
    s.rows := s.rows[p := s.rows[p].(status := Sending)];
    s.calls := s.calls + DispatchCalls(ctx.instance, c.phone, ctx.camp, RecipientOf(c));
  }

  /** The progress write after each contact. */
  method WriteProgress(s: Store, cid: int, sent: nat, failed: nat, left: int)
    requires cid in s.campaigns
    modifies s
    ensures s.State() == Progress(old(s.State()), cid, sent, failed, left)
  {
    s.campaigns := s.campaigns[cid := s.campaigns[cid].(
      contactsSent := sent, contactsFailed := failed, contactsPending := left)];
  }

  /** One turn of the loop on the store; `stop` is a `break`. */
  method ProcessContact(s: Store, ctx: Ctx, i: nat, sent: nat, failed: nat, env: Env)
    returns (stop: bool, sent': nat, failed': nat)
    requires Wf(s.State(), ctx) && i < |ctx.pending|
    modifies s
    ensures var r := Step(old(s.State()), ctx, i, sent, failed, env);
      s.State() == r.db && stop == r.Stop? && (r.Next? ==> sent' == r.sent && failed' == r.failed)
  {
    ghost var db0 := s.State();
    var cid := ctx.campaignId;
    if env.external(i).Some? {
      s.campaigns := s.campaigns[cid := s.campaigns[cid].(status := env.external(i).value)];
    }
    assert s.State() == Poll(db0, ctx, i, env);
    var polled := s.campaigns[cid].status;
    if polled == Paused || polled == Cancelled {
      return true, sent, failed;
    }
    stop, sent', failed' := CheckContact(s, ctx, i, sent, failed, env);
  }

  /** The rest of a turn once the status poll lets it go on: window, contact, quota, delivery. */
  method CheckContact(s: Store, ctx: Ctx, i: nat, sent: nat, failed: nat, env: Env)
    returns (stop: bool, sent': nat, failed': nat)
    requires Wf(s.State(), ctx) && i < |ctx.pending|
    modifies s
    ensures var r := Checked(old(s.State()), ctx, i, sent, failed, env);
      s.State() == r.db && stop == r.Stop? && (r.Next? ==> sent' == r.sent && failed' == r.failed)
  {
    ghost var db1 := s.State();
    var cid, tid := ctx.campaignId, ctx.tenantId;
    var check := Window(ctx, env, i);
    if check.Blocked? {
      s.campaigns := s.campaigns[cid := s.campaigns[cid].(status := Paused)];
      s.jobs := s.jobs + [Job(cid, tid, check.waitMs, None)];
      assert s.State() == Reschedule(db1, ctx, check.waitMs);
      return true, sent, failed;
    }
    var p := ctx.pending[i];
    var contact := ctx.joined[i];
    if contact.None? || !contact.value.active || contact.value.optedOut {
      s.rows := s.rows[p := s.rows[p].(status := Failed, errorMessage := Some(InactiveContact))];
      assert s.State() == Skip(db1, p);
      return false, sent, failed + 1;
    }
    if i > 0 && i % 50 == 0 && tid in s.tenants && s.tenants[tid].messagesSentMonth >= s.tenants[tid].messagesLimitMonth {
      s.campaigns := s.campaigns[cid := s.campaigns[cid].(status := Paused)];
      assert QuotaStops(db1, ctx, i) && s.State() == SetStatus(db1, cid, Paused);
      return true, sent, failed;
    }
    assert !QuotaStops(db1, ctx, i);
    stop := false;
    sent', failed' := DeliverTo(s, ctx, i, contact.value, sent, failed, env);
  }

  /** The `campaigns` worker's handler for `job`; `fallbackInstance` is `instanceName(tenantId)`. */
  method RunJob(s: Store, job: Job, fallbackInstance: string, env: Env) returns (outcome: JobOutcome)
    modifies s
    ensures (s.State(), outcome) == RunSpec(old(s.State()), job, fallbackInstance, env)
  {
    var cid, tid := job.campaignId, job.tenantId;
    if cid !in s.campaigns || tid !in s.tenants {
      return Error(NotFound);
    }
    var camp, tenant := s.campaigns[cid], s.tenants[tid];
    if tenant.suspended {
      s.campaigns := s.campaigns[cid := camp.(status := Paused)];
      return Error(Suspended);
    }
    if tenant.waStatus != "connected" {
      return Error(Disconnected);
    }
    var instance := OrString(tenant.waInstanceId, fallbackInstance);
    var pending := Pending(s.rows, cid, |s.rows|);
    if |pending| == 0 {
      s.campaigns := s.campaigns[cid := camp.(status := Done)];
      return Finished(0, 0);
    }
    ghost var db0 := s.State();
    s.campaigns := s.campaigns[cid := camp.(status := Running)];
    var ctx := Ctx(cid, tid, camp, instance, pending, Joined(s.contacts, s.rows, pending));
    ghost var final := Drain(s.State(), ctx, 0, 0, 0, env);
    assert RunSpec(db0, job, fallbackInstance, env)
      == (if |pending| - final.sent - final.failed == 0
          then (Finish(final.db, cid, final.sent, final.failed), Finished(final.sent, final.failed))
          else (final.db, Finished(final.sent, final.failed)));
    var sent, failed := 0, 0;
    var i := 0;
    var stopped := false;
    while i < |pending| && !stopped
      invariant 0 <= i <= |pending| && Wf(s.State(), ctx)
      invariant !stopped ==> Drain(s.State(), ctx, i, sent, failed, env) == final
      invariant stopped ==> final.db == s.State() && final.sent == sent && final.failed == failed
      decreases |pending| - i, !stopped
    {
      DrainNext(s.State(), ctx, i, sent, failed, env);
      var stop, sent', failed' := ProcessContact(s, ctx, i, sent, failed, env);
      if stop {
        stopped := true;
      } else {
        sent, failed := sent', failed';
        i := i + 1;
      }
    }
    if |pending| - sent - failed == 0 {
      s.campaigns := s.campaigns[cid := s.campaigns[cid].(
        status := Done, contactsSent := sent, contactsFailed := failed, contactsPending := 0)];
    }
    return Finished(sent, failed);
  }

  // ---------------------------------------------------------------------------
  // The scheduler tick
  // ---------------------------------------------------------------------------

  /** Helper: a non-empty set has a member. */
  lemma NonEmpty(t: set<int>)
    requires t != {}
    ensures exists x :: x in t
  {
    if forall x :: x !in t {
      assert false;
    }
  }

  /** `campaignQueue.add('run', ...)`: the job joins the queue; nothing else changes. */
  method Enqueue(s: Store, job: Job)
    modifies s
    ensures s.State() == old(s.State()).(jobs := old(s.jobs) + [job])
  {
    s.jobs := s.jobs + [job];
  }

  /** A campaign the tick hands to the queue: scheduled, with a date no later than `now`. */
  predicate Due(c: Campaign, now: Timestamp) {
    c.status == Scheduled && c.scheduledAt.Some? && c.scheduledAt.value <= now
  }

  /**
   * One tick: a `run` job for each due campaign, once each, in the order the
   * query returns them (left open); nothing else changes, no status included.
   */
  method SchedulerTick(s: Store, now: Timestamp)
    modifies s
    ensures s.State() == old(s.State()).(jobs := s.jobs)
    ensures |old(s.jobs)| <= |s.jobs| && s.jobs[..|old(s.jobs)|] == old(s.jobs)
    ensures forall k :: |old(s.jobs)| <= k < |s.jobs| ==>
      && s.jobs[k].campaignId in s.campaigns && Due(s.campaigns[s.jobs[k].campaignId], now)
      && s.jobs[k] == Job(s.jobs[k].campaignId, s.campaigns[s.jobs[k].campaignId].tenantId, 0, None)
    ensures forall k, l :: |old(s.jobs)| <= k < l < |s.jobs| ==> s.jobs[k].campaignId != s.jobs[l].campaignId
    ensures forall id :: id in s.campaigns && Due(s.campaigns[id], now) ==>
      exists k :: |old(s.jobs)| <= k < |s.jobs| && s.jobs[k].campaignId == id
  {
    var todo := s.campaigns.Keys;
    ghost var start := |s.jobs|;
    while todo != {}
      invariant s.State() == old(s.State()).(jobs := s.jobs)
      invariant start == |old(s.jobs)| <= |s.jobs| && s.jobs[..start] == old(s.jobs)
      invariant todo <= s.campaigns.Keys
      invariant forall k :: start <= k < |s.jobs| ==>
        && s.jobs[k].campaignId in s.campaigns && Due(s.campaigns[s.jobs[k].campaignId], now)
        && s.jobs[k] == Job(s.jobs[k].campaignId, s.campaigns[s.jobs[k].campaignId].tenantId, 0, None)
        && s.jobs[k].campaignId !in todo
      invariant forall k, l :: start <= k < l < |s.jobs| ==> s.jobs[k].campaignId != s.jobs[l].campaignId
      invariant forall id :: id in s.campaigns && Due(s.campaigns[id], now) ==>
        id in todo || exists k :: start <= k < |s.jobs| && s.jobs[k].campaignId == id
      decreases todo
    {
      NonEmpty(todo);
      var id :| id in todo;
      if Due(s.campaigns[id], now) {
        ghost var prev := s.jobs;
        Enqueue(s, Job(id, s.campaigns[id].tenantId, 0, None));
        assert forall k :: 0 <= k < |prev| ==> s.jobs[k] == prev[k];
        assert s.jobs[|prev|].campaignId == id;
      }
      todo := todo - {id};
    }
  }
}
