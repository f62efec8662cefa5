/**
 * Calendar days in the proleptic Gregorian calendar, and the month
 * arithmetic of JavaScript's `new Date(year, monthIndex, day)`.
 * Time of day and time zones are not modelled: a date is a calendar day.
 */
module Calendar {

  datatype Date = Date(year: int, month: int, day: int)

  predicate IsLeapYear(y: int) {
    y % 4 == 0 && (y % 100 != 0 || y % 400 == 0)
  }

  function DaysInMonth(y: int, m: int): (n: int)
    requires 1 <= m <= 12
    ensures 28 <= n <= 31
  {
    if m == 2 then (if IsLeapYear(y) then 29 else 28)
    else if m == 4 || m == 6 || m == 9 || m == 11 then 30
    else 31
  }

  /** The days of the months `1..m` of year `y`. */
  function DaysBefore(y: int, m: int): int
    requires 0 <= m <= 12
  {
    if m == 0 then 0 else DaysBefore(y, m - 1) + DaysInMonth(y, m)
  }

  /** The month lengths add up to a year of 365 days, or 366 in a leap year. */
  lemma YearLength(y: int)
    ensures DaysBefore(y, 12) == if IsLeapYear(y) then 366 else 365
  {
    assert DaysBefore(y, 1) == DaysBefore(y, 0) + DaysInMonth(y, 1);
    assert DaysBefore(y, 2) == DaysBefore(y, 1) + DaysInMonth(y, 2);
    assert DaysBefore(y, 3) == DaysBefore(y, 2) + DaysInMonth(y, 3);
    assert DaysBefore(y, 4) == DaysBefore(y, 3) + DaysInMonth(y, 4);
    assert DaysBefore(y, 5) == DaysBefore(y, 4) + DaysInMonth(y, 5);
    assert DaysBefore(y, 6) == DaysBefore(y, 5) + DaysInMonth(y, 6);
    assert DaysBefore(y, 7) == DaysBefore(y, 6) + DaysInMonth(y, 7);
    assert DaysBefore(y, 8) == DaysBefore(y, 7) + DaysInMonth(y, 8);
    assert DaysBefore(y, 9) == DaysBefore(y, 8) + DaysInMonth(y, 9);
    assert DaysBefore(y, 10) == DaysBefore(y, 9) + DaysInMonth(y, 10);
    assert DaysBefore(y, 11) == DaysBefore(y, 10) + DaysInMonth(y, 11);
    assert DaysBefore(y, 12) == DaysBefore(y, 11) + DaysInMonth(y, 12);
  }

  predicate ValidDate(d: Date) {
    1 <= d.month <= 12 && 1 <= d.day <= DaysInMonth(d.year, d.month)
  }

  /** `d1 <= d2` as instants at the same time of day: by year, then month, then day. */
  predicate DateLe(d1: Date, d2: Date) {
    d1.year < d2.year
    || (d1.year == d2.year && (d1.month < d2.month || (d1.month == d2.month && d1.day <= d2.day)))
  }

  lemma DateLeTotal(d1: Date, d2: Date)
    ensures DateLe(d1, d2) || DateLe(d2, d1)
  {
  }

  lemma DateLeTransitive(d1: Date, d2: Date, d3: Date)
    requires DateLe(d1, d2) && DateLe(d2, d3)
    ensures DateLe(d1, d3)
  {
  }

  /** `new Date(y, …)` reads a year 0..99 as 1900..1999. */
  function FullYear(y: int): int {
    if 0 <= y <= 99 then 1900 + y else y
  }

  /** Months since the start of year 0 of the 1-based month `m` of year `y`. */
  function MonthNumber(y: int, m: int): int {
    12 * y + m - 1
  }

  /**
   * The year and 1-based month that `new Date` lands on for month index `mi`
   * (0 is January, and any other integer carries into the year).
   */
  function Normalize(y: int, mi: int): (r: (int, int))
    ensures 1 <= r.1 <= 12
    ensures MonthNumber(r.0, r.1) == 12 * y + mi
  {
    (y + mi / 12, mi % 12 + 1)
  }

  /** A month number names exactly one (year, month) pair. */
  lemma MonthNumberInjective(y1: int, m1: int, y2: int, m2: int)
    requires 1 <= m1 <= 12 && 1 <= m2 <= 12
    requires MonthNumber(y1, m1) == MonthNumber(y2, m2)
    ensures y1 == y2 && m1 == m2
  {
  }

  /** `new Date(year, month - 1, 1)`: the first day of the requested month. */
  function MonthStart(year: int, month: int): (d: Date)
    ensures ValidDate(d) && d.day == 1
    ensures MonthNumber(d.year, d.month) == MonthNumber(FullYear(year), month)
  {
    var (y, m) := Normalize(FullYear(year), month - 1);
    Date(y, m, 1)
  }

  /**
   * `new Date(year, month, 0)`: day 0 of the following month, which `new Date`
   * turns into the last day of the month before it.
   */
  function MonthEnd(year: int, month: int): Date {
    var (y0, m0) := Normalize(FullYear(year), month);
    var (y, m) := Normalize(y0, m0 - 2);
    Date(y, m, DaysInMonth(y, m))
  }

  /** The day-0 trick lands on the last day of the month that starts the window. */
  lemma MonthEndIsLastDay(year: int, month: int)
    ensures var s := MonthStart(year, month);
      MonthEnd(year, month) == Date(s.year, s.month, DaysInMonth(s.year, s.month))
  {
    var s := MonthStart(year, month);
    var (y0, m0) := Normalize(FullYear(year), month);
    var (y, m) := Normalize(y0, m0 - 2);
    MonthNumberInjective(y, m, s.year, s.month);
  }

  /** A valid day lies in `[MonthStart, MonthEnd]` exactly when it is in the start's month. */
  lemma InMonthWindow(d: Date, year: int, month: int)
    requires ValidDate(d)
    ensures var s := MonthStart(year, month);
      (DateLe(s, d) && DateLe(d, MonthEnd(year, month))) <==> (d.year == s.year && d.month == s.month)
  {
    MonthEndIsLastDay(year, month);
  }

  /** The month before `(y, m)`: December of the previous year for January. */
  function PreviousMonth(y: int, m: int): (r: (int, int))
    requires 1 <= m <= 12
    ensures 1 <= r.1 <= 12
    ensures MonthNumber(r.0, r.1) == MonthNumber(y, m) - 1
  {
    if m == 1 then (y - 1, 12) else (y, m - 1)
  }

  /** Stepping back a month agrees with how `new Date` carries a month index of -1. */
  lemma PreviousMonthNormalizes(y: int, m: int)
    requires 1 <= m <= 12
    ensures PreviousMonth(y, m) == Normalize(y, m - 2)
  {
    var p := PreviousMonth(y, m);
    var n := Normalize(y, m - 2);
    MonthNumberInjective(p.0, p.1, n.0, n.1);
  }
}
