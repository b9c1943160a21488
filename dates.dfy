/**
 * Calendar dates as Python's proleptic Gregorian ordinals (`date.toordinal()`,
 * 0001-01-01 is day 1). Adding `timedelta(days = n)` to a date adds n to its
 * ordinal and subtracting two dates gives the difference of their ordinals, so
 * the license model keeps every date as an `int` day number. This module is
 * only used to state concrete calendar examples.
 */
module Dates {

  predicate IsLeap(year: int) {
    year % 4 == 0 && (year % 100 != 0 || year % 400 == 0)
  }

  function DaysInMonth(year: int, month: int): (n: int)
    requires 1 <= month <= 12
    ensures 28 <= n <= 31
  {
    if month == 2 then (if IsLeap(year) then 29 else 28)
    else if month in {4, 6, 9, 11} then 30
    else 31
  }

  /** Days in the months of `year` before `month`: the cumulative table, plus the leap day after February. */
  function DaysBeforeMonth(year: int, month: int): (n: int)
    requires 1 <= month <= 12
    ensures 28 * (month - 1) <= n <= 31 * (month - 1)
  {
    [0, 31, 59, 90, 120, 151, 181, 212, 243, 273, 304, 334][month - 1] + if month > 2 && IsLeap(year) then 1 else 0
  }

  /** Days in the years before `year` (the year 1 starts the count). */
  function DaysBeforeYear(year: int): (n: int)
    requires 1 <= year
  {
    var y := year - 1;
    y * 365 + y / 4 - y / 100 + y / 400
  }

  predicate ValidDate(year: int, month: int, day: int) {
    1 <= year && 1 <= month <= 12 && 1 <= day <= DaysInMonth(year, month)
  }

  /** The ordinal of a calendar date, as Python's `date(year, month, day).toordinal()`. */
  function Ordinal(year: int, month: int, day: int): (n: int)
    requires ValidDate(year, month, day)
    ensures n >= 1
  {
    DaysBeforeYear(year) + DaysBeforeMonth(year, month) + day
  }
}
