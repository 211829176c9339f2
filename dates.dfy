/** Proleptic Gregorian calendar dates, as Python's `datetime.date` and
    Java's `java.time.LocalDate` represent them. */
module Dates {

  datatype Ymd = Ymd(year: int, month: int, day: int)

  /** The Gregorian leap-year rule (also `IsoChronology.isLeapYear`). */
  predicate IsLeapYear(year: int) {
    year % 4 == 0 && (year % 100 != 0 || year % 400 == 0)
  }

  /** `LocalDate.lengthOfMonth`: the number of days in a month. */
  function DaysInMonth(year: int, month: int): (n: int)
    requires 1 <= month <= 12
    ensures 28 <= n <= 31
    ensures n == 29 <==> month == 2 && IsLeapYear(year)
    ensures n == 28 <==> month == 2 && !IsLeapYear(year)
    ensures n == 30 <==> month == 4 || month == 6 || month == 9 || month == 11
  {
    if month == 2 then (if IsLeapYear(year) then 29 else 28)
    else if month == 4 || month == 6 || month == 9 || month == 11 then 30
    else 31
  }

  predicate IsValid(d: Ymd) {
    1 <= d.month <= 12 && 1 <= d.day <= DaysInMonth(d.year, d.month)
  }

  /** A date that exists in the calendar: neither library can hold any other. */
  type Date = d: Ymd | IsValid(d) witness Ymd(1970, 1, 1)

  /** Chronological order: `a < b` in Python, `a.isBefore(b)` in Java. */
  predicate Before(a: Date, b: Date) {
    a.year < b.year
    || (a.year == b.year && (a.month < b.month || (a.month == b.month && a.day < b.day)))
  }

  /** `lo <= d <= hi` in Python, `!d.isBefore(lo) && !d.isAfter(hi)` in Java. */
  predicate Within(d: Date, lo: Date, hi: Date) {
    !Before(d, lo) && !Before(hi, d)
  }

  /** An inverted range holds no date. */
  lemma EmptyWindow(d: Date, lo: Date, hi: Date)
    requires Before(hi, lo)
    ensures !Within(d, lo, hi)
  {
  }

  function FirstOfMonth(year: int, month: int): (r: Date)
    requires 1 <= month <= 12
    ensures r.year == year && r.month == month
    ensures forall d: Date :: d.year == year && d.month == month ==> !Before(d, r)
  {
    Ymd(year, month, 1)
  }

  /** `start.withDayOfMonth(start.lengthOfMonth())`: the last day of a month. */
  function LastOfMonth(year: int, month: int): (r: Date)
    requires 1 <= month <= 12
    ensures r.year == year && r.month == month
    ensures forall d: Date :: d.year == year && d.month == month ==> !Before(r, d)
  {
    Ymd(year, month, DaysInMonth(year, month))
  }

  /** The day after `d`, rolling over month and year ends. */
  function NextDay(d: Date): (r: Date)
    ensures Before(d, r)
    ensures forall x: Date :: Before(d, x) ==> !Before(x, r)
  {
    if d.day < DaysInMonth(d.year, d.month) then Ymd(d.year, d.month, d.day + 1)
    else if d.month < 12 then Ymd(d.year, d.month + 1, 1)
    else Ymd(d.year + 1, 1, 1)
  }

  /** The last day of a month is the day before the first of the next one,
      December included (it rolls into January of the next year). */
  lemma LastOfMonthPrecedesNextMonth(year: int, month: int)
    requires 1 <= month <= 12
    ensures NextDay(LastOfMonth(year, month))
            == if month < 12 then FirstOfMonth(year, month + 1) else FirstOfMonth(year + 1, 1)
  {
  }

  /** The inclusive window from the first to the last day of a month holds
      exactly the dates of that month. */
  lemma MonthWindow(d: Date, year: int, month: int)
    requires 1 <= month <= 12
    ensures Within(d, FirstOfMonth(year, month), LastOfMonth(year, month))
            <==> d.year == year && d.month == month
  {
  }
}
