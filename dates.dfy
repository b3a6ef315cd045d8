/**
 * The part of JavaScript's `Date` the month pickers and the preview use.
 * `new Date(year, monthIndex, 1)` builds the first day of a month; dates the
 * browser parses may fall on any day and hour, but the code reads only their
 * local year, month and validity, so a date is a (year, month) pair, month
 * 1..12 as `getMonth() + 1` reports it; a date whose time value is NaN is
 * `InvalidDate`.
 */
module Dates {
  /** `getFullYear()` and `getMonth() + 1` of a valid date, or an Invalid Date. */
  datatype Date = Date(year: int, month: int) | InvalidDate

  /**
   * Time values are limited to 8.64e15 ms either side of 1970, i.e. from
   * 20 April -271821 to 13 September 275760; the first day of a month is
   * inside exactly for the months below (time-zone offsets cannot move a
   * first-of-month across either end).
   */
  predicate InRange(year: int, month: int) {
    (year > -271821 || (year == -271821 && month >= 5)) &&
    (year < 275760 || (year == 275760 && month <= 9))
  }

  /** The constructor treats a year from 0 to 99 as 1900 + year. */
  function FullYear(year: int): int {
    if 0 <= year <= 99 then 1900 + year else year
  }

  /**
   * `new Date(year, monthIndex, 1)`: `monthIndex` counts from 0 and may
   * overflow into the following or preceding years.
   */
  function MakeDate(year: int, monthIndex: int): (d: Date)
    ensures d.Date? ==> 1 <= d.month <= 12 && InRange(d.year, d.month)
    ensures d.Date? ==> d.year * 12 + (d.month - 1) == FullYear(year) * 12 + monthIndex
    ensures d.InvalidDate? ==> !InRange(FullYear(year) + monthIndex / 12, monthIndex % 12 + 1)
  {
    var y := FullYear(year) + monthIndex / 12;
    var m := monthIndex % 12 + 1;
    if InRange(y, m) then Date(y, m) else InvalidDate
  }

  /** For a year outside 0..99 and a month 1..12, `new Date(y, m - 1, 1)` is that month. */
  lemma MakeDateOfMonth(year: int, month: int)
    requires !(0 <= year <= 99) && 1 <= month <= 12 && InRange(year, month)
    ensures MakeDate(year, month - 1) == Date(year, month)
  {
    assert (month - 1) / 12 == 0 && (month - 1) % 12 == month - 1;
  }

  /** A two-digit year lands in the twentieth century. */
  lemma MakeDateTwoDigitYear(year: int, month: int)
    requires 0 <= year <= 99 && 1 <= month <= 12
    ensures MakeDate(year, month - 1) == Date(1900 + year, month)
  {
    assert (month - 1) / 12 == 0 && (month - 1) % 12 == month - 1;
  }

  /** Month 13 of a year is January of the next one. */
  lemma MakeDateMonthOverflow(year: int)
    requires 100 <= year < 275760
    ensures MakeDate(year, 12) == Date(year + 1, 1)
  {
  }
}
