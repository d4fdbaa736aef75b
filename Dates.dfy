/**
 * Calendar dates as plain values, the `Date` comparisons the calculator makes,
 * `setFullYear(getFullYear() + 1)`, and elapsed time in milliseconds (what
 * `getTime()` differences measure).
 */
module Dates {

  datatype Date = Date(year: int, month: int, day: int)

  /** The current time: a calendar day and the milliseconds elapsed since its midnight. */
  datatype Instant = Instant(date: Date, msOfDay: nat)

  const MsPerDay: int := 86_400_000

  predicate IsLeapYear(y: int) {
    y % 4 == 0 && (y % 100 != 0 || y % 400 == 0)
  }

  function DaysInMonth(y: int, m: int): int {
    if m == 2 then (if IsLeapYear(y) then 29 else 28)
    else if m == 4 || m == 6 || m == 9 || m == 11 then 30
    else 31
  }

  /** A date a JavaScript `Date` can stand for: a real day of the proleptic Gregorian calendar. */
  predicate Valid(d: Date) {
    1 <= d.month <= 12 && 1 <= d.day <= DaysInMonth(d.year, d.month)
  }

  /** `a < b` on the midnights of two dates. */
  predicate Before(a: Date, b: Date) {
    a.year < b.year
    || (a.year == b.year && (a.month < b.month || (a.month == b.month && a.day < b.day)))
  }

  /** `Before` is a strict total order. */
  lemma BeforeOrder(a: Date, b: Date, c: Date)
    ensures !Before(a, a)
    ensures Before(a, b) ==> !Before(b, a)
    ensures Before(a, b) && Before(b, c) ==> Before(a, c)
    ensures a == b || Before(a, b) || Before(b, a)
  {
  }

  /**
   * `d.setFullYear(d.getFullYear() + 1)`: the same month and day a year later,
   * except that 29 February rolls over to 1 March when the next year is not a leap year.
   */
  function AddOneYear(d: Date): (r: Date)
    ensures Valid(d) ==> Valid(r) && Before(d, r)
    ensures r.year == d.year + 1
    ensures r.month == d.month || (d.month == 2 && d.day == 29 && r == Date(d.year + 1, 3, 1))
  {
    if d.month == 2 && d.day == 29 && !IsLeapYear(d.year + 1) then Date(d.year + 1, 3, 1)
    else Date(d.year + 1, d.month, d.day)
  }

  /** The day after a valid date. */
  function NextDay(d: Date): Date {
    if d.day < DaysInMonth(d.year, d.month) then Date(d.year, d.month, d.day + 1)
    else if d.month < 12 then Date(d.year, d.month + 1, 1)
    else Date(d.year + 1, 1, 1)
  }

  /** The year a date counts in when years are taken to start on 1 March, so that the
      leap day closes its year. */
  function CountingYear(d: Date): int {
    if d.month <= 2 then d.year - 1 else d.year
  }

  /** Days from 1 March of year 0 to 1 March of counting year `y`. */
  function DaysBeforeYear(y: int): int {
    365 * y + y / 4 - y / 100 + y / 400
  }

  /** Days from 1 March to the first day of month `m` of the same counting year. */
  function DaysBeforeMonth(m: int): int {
    var mp := if m > 2 then m - 3 else m + 9;
    (153 * mp + 2) / 5
  }

  /** The number of the day in the proleptic Gregorian calendar, 1 January 1970 being day 0. */
  function DayNumber(d: Date): int {
    DaysBeforeYear(CountingYear(d)) + DaysBeforeMonth(d.month) + d.day - 1 - 719468
  }

  /** A counting year has 365 days, and one more when its February has a leap day. */
  lemma DaysBeforeNextYear(y: int)
    ensures DaysBeforeYear(y + 1) == DaysBeforeYear(y) + 365 + (if IsLeapYear(y + 1) then 1 else 0)
  {
    var n := y + 1;
    assert n / 4 - y / 4 == (if n % 4 == 0 then 1 else 0);
    assert n / 100 - y / 100 == (if n % 100 == 0 then 1 else 0);
    assert n / 400 - y / 400 == (if n % 400 == 0 then 1 else 0);
    assert n % 400 == 0 ==> n % 100 == 0;
    assert n % 100 == 0 ==> n % 4 == 0;
  }

  /** Within a counting year, each month starts where the one before it ends. */
  lemma DaysBeforeNextMonth(y: int, m: int)
    requires 1 <= m <= 12 && m != 2
    ensures m < 12 ==> DaysBeforeMonth(m + 1) == DaysBeforeMonth(m) + DaysInMonth(y, m)
    ensures m == 12 ==> DaysBeforeMonth(1) == DaysBeforeMonth(12) + DaysInMonth(y, 12)
  {
  }

  /** Day numbers count calendar days: from 1 January 1970, one per day. */
  lemma DayNumberCountsDays(d: Date)
    requires Valid(d)
    ensures DayNumber(Date(1970, 1, 1)) == 0
    ensures DayNumber(NextDay(d)) == DayNumber(d) + 1
  {
    assert DaysBeforeYear(1969) == 719162;
    if d.day == DaysInMonth(d.year, d.month) {
      if d.month == 2 {
        DaysBeforeNextYear(d.year - 1);
        assert DaysBeforeMonth(2) == 337 && DaysBeforeMonth(3) == 0;
      } else {
        DaysBeforeNextMonth(d.year, d.month);
      }
    }
  }

  /** The milliseconds from midnight of `from` to `now`: `now.getTime() - from.getTime()`. */
  function ElapsedMs(from: Date, now: Instant): int {
    (DayNumber(now.date) - DayNumber(from)) * MsPerDay + now.msOfDay
  }
}
