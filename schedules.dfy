/**
 * `buildSchedules` (backend/src/routes/campaigns.js:262-299): the occurrences
 * of a campaign. A recurring campaign gets one occurrence per qualifying day
 * and time of day, walking the days from the start day's midnight through the
 * end date.
 */
module Schedules {
  import opened Wrappers
  import opened Calendar

  /** A `"HH:MM"` entry of `recurrence_times`, already split into numbers. */
  datatype TimeOfDay = TimeOfDay(hours: int, minutes: int)

  /** `recurrence_type`, `recurrence_days` (0 = Sunday), `recurrence_times`, `recurrence_end_date`. */
  datatype Recurrence = Recurrence(kind: string, days: seq<int>, times: seq<TimeOfDay>, endDate: Option<Timestamp>)

  /** `dt.setHours(h, m, 0, 0)` on a midnight: hours and minutes past the day's start (they may spill into later days). */
  function Offset(t: TimeOfDay): int {
    t.hours * 60 + t.minutes
  }

  /** Whether the walk emits occurrences on `day`. */
  predicate Qualifies(rec: Recurrence, day: int) {
    rec.kind == "daily" || ((rec.kind == "weekly" || rec.kind == "custom") && Weekday(day) in rec.days)
  }

  /** The qualifying days from `day` on whose midnight is not after `end`, ascending. */
  function QualifyingDays(rec: Recurrence, day: int, end: Timestamp): (ds: seq<int>)
    decreases end - Midnight(day)
  {
    if Midnight(day) > end then []
    else (if Qualifies(rec, day) then [day] else []) + QualifyingDays(rec, day + 1, end)
  }

  /** The occurrences of one day, in the order of `times`. */
  function DayOccurrences(day: int, times: seq<TimeOfDay>): (ts: seq<Timestamp>)
    ensures |ts| == |times|
    ensures forall k :: 0 <= k < |times| ==> ts[k] == Midnight(day) + Offset(times[k])
  {
    if times == [] then [] else DayOccurrences(day, times[..|times| - 1]) + [Midnight(day) + Offset(times[|times| - 1])]
  }

  /** The occurrences of the given days, day after day. */
  function Occurrences(days: seq<int>, times: seq<TimeOfDay>): seq<Timestamp> {
    if days == [] then [] else DayOccurrences(days[0], times) + Occurrences(days[1..], times)
  }

  function Somes(ts: seq<Timestamp>): (r: seq<Option<Timestamp>>)
    ensures |r| == |ts| && forall k :: 0 <= k < |ts| ==> r[k] == Some(ts[k])
  {
    if ts == [] then [] else [Some(ts[0])] + Somes(ts[1..])
  }

  /** The times used: the given ones, or nine o'clock when none are given. */
  function TimesOrDefault(rec: Recurrence): (times: seq<TimeOfDay>)
    ensures times != []
  {
    if rec.times == [] then [TimeOfDay(9, 0)] else rec.times
  }

  /**
   * The result of `buildSchedules(base, rec)`, `None` standing for `null`.
   * `now` is the current time and `monthLater` the same time a month later,
   * the end date when none is given.
   */
  function ScheduledDates(base: Option<Timestamp>, rec: Recurrence, now: Timestamp, monthLater: Timestamp): (r: seq<Option<Timestamp>>)
    ensures r != []
    ensures rec.kind != "none" && QualifyingDays(rec, DayOf(base.GetOr(now)), rec.endDate.GetOr(monthLater)) == [] ==>
      r == [Some(base.GetOr(now))]
    ensures rec.kind != "none" ==> forall k :: 0 <= k < |r| ==> r[k].Some?
  {
    if base.None? && rec.kind == "none" then [None]
    else if rec.kind == "none" then [base]
    else
      var start := base.GetOr(now);
      var found := Occurrences(QualifyingDays(rec, DayOf(start), rec.endDate.GetOr(monthLater)), TimesOrDefault(rec));
      if found == [] then [Some(start)] else Somes(found)
  }

  // ---------------------------------------------------------------------------
  // The walk
  // ---------------------------------------------------------------------------

  /** Helper: splitting off the first day of the walk. */
  lemma OccurrencesStep(rec: Recurrence, day: int, end: Timestamp, times: seq<TimeOfDay>)
    requires Midnight(day) <= end
    ensures Occurrences(QualifyingDays(rec, day, end), times)
         == (if Qualifies(rec, day) then DayOccurrences(day, times) else []) + Occurrences(QualifyingDays(rec, day + 1, end), times)
  {
    var rest := QualifyingDays(rec, day + 1, end);
    if Qualifies(rec, day) {
      assert QualifyingDays(rec, day, end) == [day] + rest;
      assert ([day] + rest)[1..] == rest;
    } else {
      assert QualifyingDays(rec, day, end) == rest;
    }
  }

  /** The inner `for (const time of times)` loop: one occurrence per time, pushed in order. */
  method PushDay(found: seq<Timestamp>, day: int, times: seq<TimeOfDay>) returns (found': seq<Timestamp>)
    ensures found' == found + DayOccurrences(day, times)
  {
    var cursor := Midnight(day);
    found' := found;
    var k := 0;
    while k < |times|
      invariant 0 <= k <= |times|
      invariant found' == found + DayOccurrences(day, times)[..k]
    {
      ghost var occ := DayOccurrences(day, times);
      assert occ[..k + 1] == occ[..k] + [occ[k]];
      found' := found' + [cursor + Offset(times[k])];
      k := k + 1;
    }
    assert DayOccurrences(day, times)[..|times|] == DayOccurrences(day, times);
  }

  /** `buildSchedules`: the day-by-day walk, then the fallback to the start time. */
  method BuildSchedules(base: Option<Timestamp>, rec: Recurrence, now: Timestamp, monthLater: Timestamp)
    returns (schedules: seq<Option<Timestamp>>)
    ensures schedules == ScheduledDates(base, rec, now, monthLater)
  {
    if base.None? && rec.kind == "none" {
      return [None];
    }
    if rec.kind == "none" {
      return [base];
    }
    var times := if rec.times != [] then rec.times else [TimeOfDay(9, 0)];
    var endDate := if rec.endDate.Some? then rec.endDate.value else monthLater;
    var startDay := if base.Some? then base.value else now;
    var found := WalkDays(rec, DayOf(startDay), endDate, times);
    if found != [] {
      schedules := Somes(found);
    } else {
      schedules := [Some(startDay)];
    }
  }

  /** The walk of `buildSchedules` with a cursor at each day's midnight, from `day` through `endDate`. */
  method WalkDays(rec: Recurrence, day: int, endDate: Timestamp, times: seq<TimeOfDay>) returns (found: seq<Timestamp>)
    ensures found == Occurrences(QualifyingDays(rec, day, endDate), times)
  {
    found := [];
    var d := day;
    var cursor := Midnight(d);
    ghost var all := Occurrences(QualifyingDays(rec, d, endDate), times);
    assert found + all == all;
    while cursor <= endDate
      invariant cursor == Midnight(d)
      invariant all == found + Occurrences(QualifyingDays(rec, d, endDate), times)
      decreases endDate - cursor
    {
      OccurrencesStep(rec, d, endDate, times);
      ghost var rest := Occurrences(QualifyingDays(rec, d + 1, endDate), times);
      ghost var pre := found;
      var dow := Weekday(d);
      var shouldSend := rec.kind == "daily" || (rec.kind == "weekly" && dow in rec.days)
                        || (rec.kind == "custom" && dow in rec.days);
      if shouldSend {
        found := PushDay(found, d, times);
        assert Qualifies(rec, d);
        ConcatRegrouped(pre, DayOccurrences(d, times), rest);
      } else {
        assert !Qualifies(rec, d);
        assert [] + rest == rest;
      }
      d := d + 1;
      cursor := cursor + MinutesPerDay;
    }
    assert QualifyingDays(rec, d, endDate) == [];
    assert found + [] == found;
  }

  /** Helper: concatenation regrouped. */
  lemma ConcatRegrouped(a: seq<Timestamp>, b: seq<Timestamp>, c: seq<Timestamp>)
    ensures a + (b + c) == (a + b) + c
  {
  }

  // ---------------------------------------------------------------------------
  // Properties of the occurrences
  // ---------------------------------------------------------------------------

  /** Without recurrence: `[null]` when there is no base date, else exactly the base date. */
  lemma NoRecurrence(base: Option<Timestamp>, rec: Recurrence, now: Timestamp, monthLater: Timestamp)
    requires rec.kind == "none"
    ensures base.None? ==> ScheduledDates(base, rec, now, monthLater) == [None]
    ensures base.Some? ==> ScheduledDates(base, rec, now, monthLater) == [base]
  {
  }

  /** The walk visits exactly the qualifying days from `day` through the day of `end`. */
  lemma {:induction false} QualifyingDaysMembers(rec: Recurrence, day: int, end: Timestamp, d: int)
    ensures d in QualifyingDays(rec, day, end) <==> day <= d && Midnight(d) <= end && Qualifies(rec, d)
    decreases end - Midnight(day)
  {
    if Midnight(day) <= end {
      QualifyingDaysMembers(rec, day + 1, end, d);
    }
  }

  /** Strictly increasing days. */
  predicate Increasing(ds: seq<int>) {
    forall i, j :: 0 <= i < j < |ds| ==> ds[i] < ds[j]
  }

  /** Helper: a day before every day of an increasing sequence, put in front. */
  lemma IncreasingCons(d: int, rest: seq<int>)
    requires Increasing(rest) && forall x :: x in rest ==> d < x
    ensures Increasing([d] + rest)
  {
    var ds := [d] + rest;
    forall i, j | 0 <= i < j < |ds| ensures ds[i] < ds[j] {
      assert ds[j] == rest[j - 1];
      if i > 0 {
        assert ds[i] == rest[i - 1];
      } else {
        assert rest[j - 1] in rest;
      }
    }
  }

  /** The qualifying days come in strictly increasing order. */
  lemma {:induction false} QualifyingDaysAscending(rec: Recurrence, day: int, end: Timestamp)
    ensures Increasing(QualifyingDays(rec, day, end))
    decreases end - Midnight(day)
  {
    if Midnight(day) <= end {
      var rest := QualifyingDays(rec, day + 1, end);
      QualifyingDaysAscending(rec, day + 1, end);
      if Qualifies(rec, day) {
        forall x | x in rest ensures day < x {
          QualifyingDaysMembers(rec, day + 1, end, x);
        }
        IncreasingCons(day, rest);
      }
    }
  }

  /** A daily recurrence qualifies every day from the start day through the end day. */
  lemma {:induction false} DailyDays(rec: Recurrence, day: int, end: Timestamp)
    requires rec.kind == "daily"
    ensures |QualifyingDays(rec, day, end)| == if Midnight(day) > end then 0 else DayOf(end) - day + 1
    decreases end - Midnight(day)
  {
    if Midnight(day) <= end {
      DailyDays(rec, day + 1, end);
      var m := MinuteOfDay(end);
      assert Midnight(DayOf(end)) + m == end;
      if Midnight(day + 1) > end {
        assert DayOf(end) == day;
      }
    }
  }

  /** An unrecognised recurrence type (such as 'once') qualifies no day. */
  lemma {:induction false} UnknownKindNoDays(rec: Recurrence, day: int, end: Timestamp)
    requires rec.kind != "daily" && rec.kind != "weekly" && rec.kind != "custom"
    ensures QualifyingDays(rec, day, end) == []
    decreases end - Midnight(day)
  {
    if Midnight(day) <= end {
      UnknownKindNoDays(rec, day + 1, end);
    }
  }

  /** An unrecognised recurrence type falls back to a single occurrence at the start time. */
  lemma UnknownKindSingle(base: Option<Timestamp>, rec: Recurrence, now: Timestamp, monthLater: Timestamp)
    requires rec.kind != "none" && rec.kind != "daily" && rec.kind != "weekly" && rec.kind != "custom"
    ensures ScheduledDates(base, rec, now, monthLater) == [Some(base.GetOr(now))]
  {
    UnknownKindNoDays(rec, DayOf(base.GetOr(now)), rec.endDate.GetOr(monthLater));
  }

  lemma {:induction false} OccurrencesLength(days: seq<int>, times: seq<TimeOfDay>)
    ensures |Occurrences(days, times)| == |days| * |times|
  {
    if days != [] {
      OccurrencesLength(days[1..], times);
      MulStep(|days|, |times|);
    }
  }

  /** Occurrence `i`, that is `j * |times| + k`, is time `k` of qualifying day `j`. */
  lemma {:induction false} OccurrencesAt(days: seq<int>, times: seq<TimeOfDay>, j: int, k: int, i: int)
    requires 0 <= j < |days| && 0 <= k < |times| && i == j * |times| + k
    ensures 0 <= i < |Occurrences(days, times)|
    ensures Occurrences(days, times)[i] == Midnight(days[j]) + Offset(times[k])
  {
    var n := |times|;
    var first := DayOccurrences(days[0], times);
    var rest := Occurrences(days[1..], times);
    assert Occurrences(days, times) == first + rest;
    if j > 0 {
      MulStep(j, n);
      OccurrencesAt(days[1..], times, j - 1, k, i - n);
      IndexAfter(first, rest, i - n);
      assert days[1..][j - 1] == days[j];
    } else {
      MulZero(n);
      assert first[k] == Midnight(days[0]) + Offset(times[k]);
    }
  }

  /** Helper: indexing past the first part of a concatenation. */
  lemma IndexAfter(a: seq<Timestamp>, b: seq<Timestamp>, x: int)
    requires 0 <= x < |b|
    ensures (a + b)[|a| + x] == b[x]
  {
  }

  /** Helper: no rows. */
  lemma MulZero(n: int)
    ensures 0 * n == 0
  {
  }

  /** Helper: one more row of `n`. */
  lemma MulStep(j: int, n: int)
    ensures j * n == n + (j - 1) * n
  {
  }

  /** Helper: a recurring campaign with a qualifying day yields exactly its occurrences. */
  lemma RecurringOccurrences(base: Option<Timestamp>, rec: Recurrence, now: Timestamp, monthLater: Timestamp)
    requires rec.kind != "none"
    requires QualifyingDays(rec, DayOf(base.GetOr(now)), rec.endDate.GetOr(monthLater)) != []
    ensures ScheduledDates(base, rec, now, monthLater)
         == Somes(Occurrences(QualifyingDays(rec, DayOf(base.GetOr(now)), rec.endDate.GetOr(monthLater)), TimesOrDefault(rec)))
  {
    var days := QualifyingDays(rec, DayOf(base.GetOr(now)), rec.endDate.GetOr(monthLater));
    MulZero(|TimesOrDefault(rec)|);
    OccurrencesAt(days, TimesOrDefault(rec), 0, 0, 0);
  }

  /** Helper: the number of occurrences of `days` at `times`, wrapped as dates. */
  lemma SomesLength(days: seq<int>, times: seq<TimeOfDay>)
    ensures |Somes(Occurrences(days, times))| == |days| * |times|
  {
    OccurrencesLength(days, times);
  }

  /** Helper: position `i` of the wrapped sequence. */
  lemma SomesAt(ts: seq<Timestamp>, i: int)
    requires 0 <= i < |ts|
    ensures |Somes(ts)| == |ts| && Somes(ts)[i] == Some(ts[i])
  {
  }

  /**
   * A recurring campaign with at least one qualifying day gets |days| x |times|
   * occurrences, occurrence `j * |times| + k` being time `k` of the `j`-th
   * qualifying day.
   */
  lemma RecurringShape(base: Option<Timestamp>, rec: Recurrence, now: Timestamp, monthLater: Timestamp, j: int, k: int)
    requires rec.kind != "none"
    requires 0 <= j < |QualifyingDays(rec, DayOf(base.GetOr(now)), rec.endDate.GetOr(monthLater))|
    requires 0 <= k < |TimesOrDefault(rec)|
    ensures |ScheduledDates(base, rec, now, monthLater)|
         == |QualifyingDays(rec, DayOf(base.GetOr(now)), rec.endDate.GetOr(monthLater))| * |TimesOrDefault(rec)|
    ensures j * |TimesOrDefault(rec)| + k < |ScheduledDates(base, rec, now, monthLater)|
    ensures ScheduledDates(base, rec, now, monthLater)[j * |TimesOrDefault(rec)| + k]
         == Some(Midnight(QualifyingDays(rec, DayOf(base.GetOr(now)), rec.endDate.GetOr(monthLater))[j]) + Offset(TimesOrDefault(rec)[k]))
  {
    var days := QualifyingDays(rec, DayOf(base.GetOr(now)), rec.endDate.GetOr(monthLater));
    RecurringOccurrences(base, rec, now, monthLater);
    SomesLength(days, TimesOrDefault(rec));
    OccurrencesAt(days, TimesOrDefault(rec), j, k, j * |TimesOrDefault(rec)| + k);
    SomesAt(Occurrences(days, TimesOrDefault(rec)), j * |TimesOrDefault(rec)| + k);
  }

  /** The start day itself is walked: when it qualifies, its occurrences come first, even those before the base time. */
  lemma StartDayFirst(base: Option<Timestamp>, rec: Recurrence, now: Timestamp, monthLater: Timestamp, k: int)
    requires rec.kind != "none"
    requires Qualifies(rec, DayOf(base.GetOr(now)))
    requires Midnight(DayOf(base.GetOr(now))) <= rec.endDate.GetOr(monthLater)
    requires 0 <= k < |TimesOrDefault(rec)|
    ensures k < |ScheduledDates(base, rec, now, monthLater)|
    ensures ScheduledDates(base, rec, now, monthLater)[k] == Some(Midnight(DayOf(base.GetOr(now))) + Offset(TimesOrDefault(rec)[k]))
  {
    var start := DayOf(base.GetOr(now));
    var days := QualifyingDays(rec, start, rec.endDate.GetOr(monthLater));
    assert days[0] == start;
    RecurringShape(base, rec, now, monthLater, 0, k);
    assert 0 * |TimesOrDefault(rec)| + k == k;
  }
}
