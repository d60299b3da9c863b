/**
  Calendar dates as (year, month, day) triples, ordered the way Python's
  `date` objects and `(month, day)` tuples compare: lexicographically.
 */
module Dates {

  /** A calendar date. Any triple can be compared; ValidDate says which ones
      a Python `date` can hold. */
  datatype Date = Date(year: int, month: int, day: int)

  /** Year range of Python's `datetime.date` (MINYEAR and MAXYEAR). */
  const MinYear: int := 1
  const MaxYear: int := 9999

  predicate IsLeapYear(y: int) {
    y % 4 == 0 && (y % 100 != 0 || y % 400 == 0)
  }

  /** Length of month `m` (1..12) of year `y` in the proleptic Gregorian calendar. */
  function DaysInMonth(y: int, m: int): (n: int)
    requires 1 <= m <= 12
    ensures 28 <= n <= 31
    ensures n == 29 <==> m == 2 && IsLeapYear(y)
  {
    if m == 2 then (if IsLeapYear(y) then 29 else 28)
    else if m == 4 || m == 6 || m == 9 || m == 11 then 30
    else 31
  }

  /** The triples a Python `date` object can represent. */
  predicate ValidDate(d: Date) {
    && MinYear <= d.year <= MaxYear
    && 1 <= d.month <= 12
    && 1 <= d.day <= DaysInMonth(d.year, d.month)
  }

  /** `(a.month, a.day) < (b.month, b.day)` as Python compares tuples. */
  predicate MonthDayBefore(a: Date, b: Date) {
    a.month < b.month || (a.month == b.month && a.day < b.day)
  }

  /** Strict chronological order: `a < b` on Python dates. */
  predicate DateBefore(a: Date, b: Date) {
    a.year < b.year || (a.year == b.year && MonthDayBefore(a, b))
  }

  /** `a <= b` on Python dates: `a` is not later than `b`. */
  predicate OnOrBefore(a: Date, b: Date) {
    !DateBefore(b, a)
  }

  /** The date `n` years after `d`, on the same month and day. */
  function Anniversary(d: Date, n: int): Date {
    Date(d.year + n, d.month, d.day)
  }

  /** OnOrBefore is a total order on triples. */
  lemma OnOrBeforeIsTotalOrder(a: Date, b: Date, c: Date)
    ensures OnOrBefore(a, a)
    ensures OnOrBefore(a, b) && OnOrBefore(b, a) ==> a == b
    ensures OnOrBefore(a, b) && OnOrBefore(b, c) ==> OnOrBefore(a, c)
    ensures OnOrBefore(a, b) || OnOrBefore(b, a)
  {
  }
}
