/** Plain calendar fields in place of JavaScript `Date` objects, and the
    Gregorian month lengths that `new Date(y, m, 0).getDate()` yields. */
module Calendar {

  /** Gregorian leap rule; `%` is Euclidean, which agrees with divisibility
      for negative years too. */
  predicate IsLeapYear(y: int) {
    y % 4 == 0 && (y % 100 != 0 || y % 400 == 0)
  }

  /** Length of the month whose one-based number is m, used as
      `new Date(y, m, 0).getDate()`: day 0 of the following month is the
      last day of month m, and a month number outside 1..12 rolls into the
      neighbouring year (m = 0 is December of year y - 1). */
  function DaysInMonth(y: int, m: int): (r: int)
    ensures 28 <= r <= 31
  {
    var mm := (m - 1) % 12 + 1;
    var yy := y + (m - 1) / 12;
    if mm == 2 then (if IsLeapYear(yy) then 29 else 28)
    else if mm == 4 || mm == 6 || mm == 9 || mm == 11 then 30
    else 31
  }

  function DaysInYear(y: int): (r: int)
    ensures r == 365 || r == 366
  {
    if IsLeapYear(y) then 366 else 365
  }

  /** Days in months 1..m-1 of year y. */
  function DaysBefore(y: int, m: int): (r: int)
    requires 1 <= m <= 13
    ensures 28 * (m - 1) <= r <= 31 * (m - 1)
    decreases m
  {
    if m == 1 then 0 else DaysBefore(y, m - 1) + DaysInMonth(y, m - 1)
  }

  /** `getDayOfYear`: one-based ordinal of a date within its year. */
  function DayOfYear(y: int, m: int, d: int): int
    requires 1 <= m <= 12
  {
    DaysBefore(y, m) + d
  }

  /** A calendar date: year, one-based month, day of month. */
  datatype Date = Date(year: int, month: int, day: int)

  type Weekday = w: int | 0 <= w < 7

  /** A point in local time as its calendar fields: one-based month, day of
      month, clock fields, milliseconds, and the weekday (0 is Sunday). */
  datatype Instant = Instant(
    year: int, month: int, date: int,
    hours: int, minutes: int, seconds: int, milliseconds: int,
    weekday: Weekday)

  predicate ValidDate(y: int, m: int, d: int) {
    1 <= m <= 12 && 1 <= d <= DaysInMonth(y, m)
  }

  /** The ranges `Date` guarantees for its getters. */
  predicate ValidInstant(now: Instant) {
    && ValidDate(now.year, now.month, now.date)
    && 0 <= now.hours < 24
    && 0 <= now.minutes < 60
    && 0 <= now.seconds < 60
    && 0 <= now.milliseconds < 1000
  }

  /** Month numbers wrap into the neighbouring years, twelve at a time. */
  lemma DaysInMonthShift(y: int, m: int)
    ensures DaysInMonth(y, m + 12) == DaysInMonth(y + 1, m)
  {
    assert (m + 12 - 1) % 12 == (m - 1) % 12;
    assert (m + 12 - 1) / 12 == (m - 1) / 12 + 1;
  }

  /** Month 0, which Backspace can produce in a draft, is read as the
      December before, so it has 31 days. */
  lemma DaysInMonthZero(y: int)
    ensures DaysInMonth(y, 0) == 31
  {
    assert (0 - 1) % 12 + 1 == 12;
  }

  /** February has 29 days exactly in leap years. */
  lemma FebruaryLength(y: int)
    ensures DaysInMonth(y, 2) == 29 <==> IsLeapYear(y)
    ensures DaysInMonth(y, 2) == 28 <==> !IsLeapYear(y)
  {
  }

  /** The twelve month lengths add up to the year length. */
  lemma {:induction false} MonthsFillYear(y: int)
    ensures DaysBefore(y, 13) == DaysInYear(y)
  {
    var feb := DaysInMonth(y, 2);
    assert DaysBefore(y, 3) == 31 + feb;
    assert DaysBefore(y, 7) == 31 + feb + 31 + 30 + 31 + 30;
    assert DaysBefore(y, 13) == 31 + feb + 31 + 30 + 31 + 30 + 31 + 31 + 30 + 31 + 30 + 31;
    FebruaryLength(y);
  }

  /** The day of the year of a valid date lies in 1..DaysInYear. */
  lemma {:induction false} DayOfYearBounds(y: int, m: int, d: int)
    requires ValidDate(y, m, d)
    ensures 1 <= DayOfYear(y, m, d) <= DaysInYear(y)
  {
    DaysBeforeMonotone(y, m + 1, 13);
    MonthsFillYear(y);
  }

  lemma {:induction false} DaysBeforeMonotone(y: int, m: int, n: int)
    requires 1 <= m <= n <= 13
    ensures DaysBefore(y, m) <= DaysBefore(y, n)
    decreases n - m
  {
    if m < n {
      DaysBeforeMonotone(y, m, n - 1);
    }
  }
}
