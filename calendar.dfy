/**
 * Dates and timestamps as integers.
 *
 * A timestamp is a count of microseconds since 1970-01-01 00:00 UTC (the
 * resolution of Python's `datetime`); a date is a count of days since
 * 1970-01-01. Time zones are not modelled: every date is a UTC date.
 */
module Calendar {

  type Micros = int
  type Day = int

  const MICROS_PER_SECOND: int := 1_000_000
  const MICROS_PER_DAY: int := 86_400 * MICROS_PER_SECOND

  /** `datetime.combine(d, datetime.min.time())`: midnight at the start of `d`. */
  function StartOfDay(d: Day): Micros
  {
    d * MICROS_PER_DAY
  }

  /** `datetime.combine(d, datetime.max.time())`: 23:59:59.999999 on `d`. */
  function EndOfDay(d: Day): (t: Micros)
    ensures StartOfDay(d) < t < StartOfDay(d + 1)
    ensures t == StartOfDay(d + 1) - 1
  {
    StartOfDay(d) + MICROS_PER_DAY - 1
  }

  /** `t.date()`: the day a timestamp falls on. */
  function DayOf(t: Micros): (d: Day)
    ensures StartOfDay(d) <= t < StartOfDay(d + 1)
  {
    t / MICROS_PER_DAY
  }

  lemma StartOfDayMonotone(a: Day, b: Day)
    requires a <= b
    ensures StartOfDay(a) <= StartOfDay(b)
  {
    assert StartOfDay(b) - StartOfDay(a) == (b - a) * MICROS_PER_DAY;
  }

  /** A day is characterised by the half-open interval of its timestamps. */
  lemma DayOfIff(t: Micros, d: Day)
    ensures DayOf(t) == d <==> StartOfDay(d) <= t < StartOfDay(d + 1)
  {
  }

  /** The timestamps from midnight of `s` up to (not including) midnight after `e` are
      exactly those dated `s` to `e`. */
  lemma WholeDaysIff(t: Micros, s: Day, e: Day)
    ensures StartOfDay(s) <= t < StartOfDay(e + 1) <==> s <= DayOf(t) <= e
  {
    var d := DayOf(t);
    if s <= d {
      StartOfDayMonotone(s, d);
    } else {
      StartOfDayMonotone(d + 1, s);
    }
    if d <= e {
      StartOfDayMonotone(d + 1, e + 1);
    } else {
      StartOfDayMonotone(e + 1, d);
    }
  }

  /** Timestamps are ordered no later than their days. */
  lemma DayOfMonotone(t: Micros, u: Micros)
    requires t <= u
    ensures DayOf(t) <= DayOf(u)
  {
  }

  /** `d.weekday()`, Monday = 0 ... Sunday = 6; day 0 (1970-01-01) was a Thursday. */
  function Weekday(d: Day): (w: nat)
    ensures w < 7
  {
    (d + 3) % 7
  }

  /** `today - timedelta(days=today.weekday())`: the Monday on or before `d`. */
  function WeekStart(d: Day): (m: Day)
    ensures Weekday(m) == 0
    ensures m <= d <= m + 6
  {
    d - Weekday(d)
  }

  lemma WeekdayExamples()
    ensures Weekday(0) == 3       // 1970-01-01, a Thursday
    ensures Weekday(4) == 0       // 1970-01-05, a Monday
    ensures Weekday(20009) == 6   // 2024-10-13, a Sunday
  {
  }

  /** Every day of a week has the same week start, and a week has seven days. */
  lemma WeekStartOfWeekDays(m: Day, k: int)
    requires Weekday(m) == 0 && 0 <= k < 7
    ensures WeekStart(m + k) == m
  {
  }
}
