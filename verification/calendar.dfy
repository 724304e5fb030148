/** The proleptic Gregorian calendar that Python's `datetime` enforces when
    it builds a date: years 1 to 9999, months 1 to 12, days within the month. */
module Calendar {

  predicate IsLeapYear(y: int)
  {
    y % 4 == 0 && (y % 100 != 0 || y % 400 == 0)
  }

  function DaysInMonth(y: int, m: int): (d: nat)
    requires 1 <= m <= 12
    ensures 28 <= d <= 31
  {
    if m == 2 then (if IsLeapYear(y) then 29 else 28)
    else if m == 4 || m == 6 || m == 9 || m == 11 then 30
    else 31
  }

  predicate ValidDate(year: int, month: int, day: int)
  {
    1 <= year <= 9999 && 1 <= month <= 12 && 1 <= day <= DaysInMonth(year, month)
  }
}
