/**
 * Calendar dates at day granularity, as the pickers read them from
 * java.util.Calendar: the YEAR field, the MONTH field numbered 0..11 and
 * the DAY_OF_MONTH field. A Calendar is always normalised, so every date
 * here is a real day of the (proleptic) Gregorian calendar.
 */
module CalendarDate {

  predicate IsLeapYear(year: int) {
    year % 4 == 0 && (year % 100 != 0 || year % 400 == 0)
  }

  /** Number of days of a month; months are numbered 0 (January) to 11 (December). */
  function DaysInMonth(year: int, month: int): (n: int)
    requires 0 <= month < 12
    ensures 28 <= n <= 31
    ensures n == 31 <==> month in {0, 2, 4, 6, 7, 9, 11}
    ensures month == 1 ==> (n == 29 <==> IsLeapYear(year))
  {
    if month == 1 then (if IsLeapYear(year) then 29 else 28)
    else if month == 3 || month == 5 || month == 8 || month == 10 then 30
    else 31
  }

  /** The three Calendar fields the pickers read. */
  datatype DateFields = DateFields(year: int, month: int, day: int)

  predicate IsNormalized(d: DateFields) {
    0 <= d.month < 12 && 1 <= d.day <= DaysInMonth(d.year, d.month)
  }

  /** A normalised date, the only kind a Calendar holds. */
  type Date = d: DateFields | IsNormalized(d) witness DateFields(1970, 0, 1)

  /** A calendar month: a year and a month 0..11. */
  datatype YearMonth = YearMonth(year: int, month: int)

  /** Months counted from January of year 0, so that consecutive months differ by one. */
  function MonthIndex(year: int, month: int): int {
    12 * year + month
  }

  function MonthOf(d: DateFields): int {
    MonthIndex(d.year, d.month)
  }

  /** `d` lies in the month `month` of `year` (Calendar YEAR and MONTH fields both match). */
  predicate InMonth(d: DateFields, year: int, month: int): (b: bool)
    ensures 0 <= d.month < 12 && 0 <= month < 12 ==> (b <==> MonthOf(d) == MonthIndex(year, month))
  {
    d.year == year && d.month == month
  }

  /** Strict chronological order of two dates: `a` is earlier than `b`. */
  predicate Before(a: DateFields, b: DateFields) {
    a.year < b.year ||
    (a.year == b.year && (a.month < b.month || (a.month == b.month && a.day < b.day)))
  }

  /** The month that follows `ym`, carrying into the next year after December. */
  function NextMonth(ym: YearMonth): (r: YearMonth)
    requires 0 <= ym.month < 12
    ensures 0 <= r.month < 12
    ensures MonthIndex(r.year, r.month) == MonthIndex(ym.year, ym.month) + 1
  {
    if ym.month == 11 then YearMonth(ym.year + 1, 0) else YearMonth(ym.year, ym.month + 1)
  }

  /** The month that precedes `ym`, borrowing from the previous year before January. */
  function PrevMonth(ym: YearMonth): (r: YearMonth)
    requires 0 <= ym.month < 12
    ensures 0 <= r.month < 12
    ensures MonthIndex(r.year, r.month) == MonthIndex(ym.year, ym.month) - 1
  {
    if ym.month == 0 then YearMonth(ym.year - 1, 11) else YearMonth(ym.year, ym.month - 1)
  }

  /** Two months 0..11 with the same index are the same month. */
  lemma MonthIndexInjective(y1: int, m1: int, y2: int, m2: int)
    requires 0 <= m1 < 12 && 0 <= m2 < 12
    requires MonthIndex(y1, m1) == MonthIndex(y2, m2)
    ensures y1 == y2 && m1 == m2
  {
  }

  /**
   * Dates in different months are ordered by their months alone: the day
   * of month only decides between two dates of the same month.
   */
  lemma BeforeAcrossMonths(a: Date, b: Date)
    requires MonthOf(a) != MonthOf(b)
    ensures Before(a, b) <==> MonthOf(a) < MonthOf(b)
  {
    if a.year == b.year {
      assert a.month != b.month;
    } else if a.year < b.year {
      assert MonthOf(a) < 12 * a.year + 12 <= 12 * b.year;
    } else {
      assert MonthOf(b) < 12 * b.year + 12 <= 12 * a.year;
    }
  }

  /** `Before` is a strict total order on dates. */
  lemma BeforeIsStrictTotalOrder(a: DateFields, b: DateFields, c: DateFields)
    ensures !Before(a, a)
    ensures Before(a, b) ==> !Before(b, a)
    ensures Before(a, b) && Before(b, c) ==> Before(a, c)
    ensures a == b || Before(a, b) || Before(b, a)
  {
  }
}
