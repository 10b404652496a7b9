/**
 * Local wall-clock time as the backend reads it through `Date` (`getDay`,
 * `getHours`, `getMinutes`, `setHours(0, 0, 0, 0)`, `setDate(getDate() + 1)`).
 *
 * A timestamp is a whole number of minutes since local midnight of
 * 1970-01-01, a Thursday; daylight-saving shifts are not represented, so
 * every day has 1440 minutes.
 */
module Calendar {
  type Timestamp = int

  const MinutesPerDay: int := 1440
  const MillisPerMinute: int := 60000
  const MillisPerDay: int := 86400000

  /** The local day number of `t` (day 0 is 1970-01-01). */
  function DayOf(t: Timestamp): int {
    t / MinutesPerDay
  }

  /** `setHours(0, 0, 0, 0)`: local midnight of the day. */
  function Midnight(day: int): Timestamp {
    day * MinutesPerDay
  }

  /** `getDay()`: 0 for Sunday, ..., 6 for Saturday. */
  function Weekday(day: int): (w: int)
    ensures 0 <= w < 7
  {
    (day + 4) % 7
  }

  /** Minutes elapsed since local midnight. */
  function MinuteOfDay(t: Timestamp): (m: int)
    ensures 0 <= m < MinutesPerDay
    ensures Midnight(DayOf(t)) + m == t
  {
    t % MinutesPerDay
  }

  /** `getHours()`. */
  function Hour(t: Timestamp): (h: int)
    ensures 0 <= h < 24
  {
    MinuteOfDay(t) / 60
  }

  /** `getMinutes()`. */
  function Minute(t: Timestamp): (m: int)
    ensures 0 <= m < 60
    ensures MinuteOfDay(t) == Hour(t) * 60 + m
  {
    MinuteOfDay(t) % 60
  }

  /** The day after a Saturday is a Sunday, and so on round the week. */
  lemma NextWeekday(day: int)
    ensures Weekday(day + 1) == (Weekday(day) + 1) % 7
  {
  }

  /** A time of day as midnight of its day plus the minutes since. */
  lemma DayOfMidnightPlus(day: int, m: int)
    requires 0 <= m < MinutesPerDay
    ensures DayOf(Midnight(day) + m) == day && MinuteOfDay(Midnight(day) + m) == m
  {
  }

  /**
   * `getDate()`: the day of the month of a local day number, by the
   * proleptic Gregorian calendar. Days are counted from 0000-03-01 in 400-year
   * eras, each split into centuries, four-year cycles and March-based years,
   * so that a leap day ends its year.
   */
  function DayOfMonth(day: int): (d: int)
    ensures 1 <= d <= 31
  {
    var z := day + 719468;
    var doe := z % 146097;
    var doy := DayOfYear(doe);
    var mp := (5 * doy + 2) / 153;
    doy - (153 * mp + 2) / 5 + 1
  }

  /** The day within its March-based year of day `doe` of a 400-year era. */
  function DayOfYear(doe: int): (doy: int)
    requires 0 <= doe < 146097
    ensures 0 <= doy < 366
  {
    var century := if doe == 146096 then 3 else doe / 36524;
    var doc := doe - 36524 * century;
    var doq := doc % 1461;
    var year := if doq == 1460 then 3 else doq / 365;
    doq - 365 * year
  }
}
