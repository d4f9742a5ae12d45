/** The values of Python's `datetime` module that the core reads: calendar
    dates, and instants that are only stored and compared. */
module Dates {

  datatype DateValue = DateValue(year: int, month: int, day: int)

  /** The Gregorian leap-year rule `datetime` follows. */
  predicate IsLeap(year: int) {
    year % 4 == 0 && (year % 100 != 0 || year % 400 == 0)
  }

  function DaysInMonth(year: int, month: int): (n: int)
    requires 1 <= month <= 12
    ensures 28 <= n <= 31
  {
    if month == 2 then (if IsLeap(year) then 29 else 28)
    else if month == 4 || month == 6 || month == 9 || month == 11 then 30
    else 31
  }

  /** `datetime.date`: year 1..9999, month 1..12, a day that exists in that
      month. */
  type Date = d: DateValue | 1 <= d.year <= 9999 && 1 <= d.month <= 12 && 1 <= d.day <= DaysInMonth(d.year, d.month)
    witness DateValue(1, 1, 1)

  /** A `datetime` (the value of `now()`): the core only stores it. */
  datatype Instant = Instant(ticks: int)
}
