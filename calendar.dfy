/** The proleptic Gregorian calendar that JavaScript's Date uses, counted in
    days since 1970-01-01 (section 21.4.1 of ECMA-262: Day, YearFromTime,
    MonthFromTime, DateFromTime, MakeDay). Months are 0-based, as
    getUTCMonth returns them; days of the month start at 1. */
module Calendar {

  predicate IsLeapYear(y: int) {
    (y % 4 == 0 && y % 100 != 0) || y % 400 == 0
  }

  function DaysInYear(y: int): (n: int)
    ensures n == 365 || n == 366
  {
    if IsLeapYear(y) then 366 else 365
  }

  function DaysInMonth(y: int, m: int): (n: int)
    requires 0 <= m < 12
    ensures 28 <= n <= 31
  {
    if m == 1 then (if IsLeapYear(y) then 29 else 28)
    else if m == 3 || m == 5 || m == 8 || m == 10 then 30
    else 31
  }

  /** Days of year y before the first day of month m (m = 12: the whole year). */
  function DaysBeforeMonth(y: int, m: int): (n: int)
    requires 0 <= m <= 12
    ensures 0 <= n <= 366
  {
    var leap := if IsLeapYear(y) && m >= 2 then 1 else 0;
    [0, 31, 59, 90, 120, 151, 181, 212, 243, 273, 304, 334, 365][m] + leap
  }

  lemma DaysBeforeMonthStep(y: int, m: int)
    requires 0 <= m < 12
    ensures DaysBeforeMonth(y, m + 1) == DaysBeforeMonth(y, m) + DaysInMonth(y, m)
    ensures DaysBeforeMonth(y, 0) == 0 && DaysBeforeMonth(y, 12) == DaysInYear(y)
  {
  }

  /** Days from 1970-01-01 to the first day of year y (negative before 1970). */
  function DaysBeforeYear(y: int): int
    decreases if y >= 1970 then y - 1970 else 1970 - y
  {
    if y == 1970 then 0
    else if y > 1970 then DaysBeforeYear(y - 1) + DaysInYear(y - 1)
    else DaysBeforeYear(y + 1) - DaysInYear(y)
  }

  lemma DaysBeforeYearStep(y: int)
    ensures DaysBeforeYear(y + 1) == DaysBeforeYear(y) + DaysInYear(y)
  {
  }

  /** Every later year starts after the whole of an earlier one. */
  lemma {:induction false} DaysBeforeYearMonotone(a: int, b: int)
    requires a < b
    ensures DaysBeforeYear(a) + DaysInYear(a) <= DaysBeforeYear(b)
    decreases b - a
  {
    DaysBeforeYearStep(a);
    if a + 1 < b {
      DaysBeforeYearMonotone(a + 1, b);
      DaysBeforeYearStep(a + 1);
    }
  }

  datatype Civil = Civil(year: int, month: int, day: int)

  predicate ValidCivil(c: Civil) {
    0 <= c.month < 12 && 1 <= c.day <= DaysInMonth(c.year, c.month)
  }

  /** The day number of a calendar date. */
  function DaysFromCivil(y: int, m: int, d: int): int
    requires 0 <= m < 12
  {
    DaysBeforeYear(y) + DaysBeforeMonth(y, m) + d - 1
  }

  /** ECMA-262 MakeDay: a month outside 0..11 carries into the year and a day
      outside the month carries into the neighbouring months. */
  function MakeDay(y: int, m: int, d: int): int {
    DaysFromCivil(y + m / 12, m % 12, 1) + d - 1
  }

  /** The year holding day `n` of year `y` (n may run past either end), and
      the day of that year. */
  function YearFrom(y: int, n: int): (r: (int, int))
    ensures 0 <= r.1 < DaysInYear(r.0)
    ensures DaysBeforeYear(r.0) + r.1 == DaysBeforeYear(y) + n
    decreases if n < 0 then 366 - n else n
  {
    if 0 <= n < DaysInYear(y) then (y, n)
    else if n >= DaysInYear(y) then
      DaysBeforeYearStep(y);
      YearFrom(y + 1, n - DaysInYear(y))
    else
      DaysBeforeYearStep(y - 1);
      YearFrom(y - 1, n + DaysInYear(y - 1))
  }

  /** The month of year y holding day-of-year `doy`, searching from month m. */
  function MonthFrom(y: int, doy: int, m: int): (r: int)
    requires 0 <= m < 12 && DaysBeforeMonth(y, m) <= doy < DaysInYear(y)
    ensures m <= r < 12
    ensures DaysBeforeMonth(y, r) <= doy < DaysBeforeMonth(y, r) + DaysInMonth(y, r)
    decreases 12 - m
  {
    DaysBeforeMonthStep(y, m);
    if doy < DaysBeforeMonth(y, m + 1) then m else MonthFrom(y, doy, m + 1)
  }

  /** The calendar date of day number n (YearFromTime, MonthFromTime,
      DateFromTime of ECMA-262). */
  function CivilFromDays(n: int): (c: Civil)
    ensures ValidCivil(c)
    ensures DaysFromCivil(c.year, c.month, c.day) == n
  {
    var (y, doy) := YearFrom(1970, n);
    DaysBeforeMonthStep(y, 0);
    var m := MonthFrom(y, doy, 0);
    Civil(y, m, doy - DaysBeforeMonth(y, m) + 1)
  }

  /** Distinct valid dates have distinct day numbers. */
  lemma DaysFromCivilInjective(c1: Civil, c2: Civil)
    requires ValidCivil(c1) && ValidCivil(c2)
    requires DaysFromCivil(c1.year, c1.month, c1.day) == DaysFromCivil(c2.year, c2.month, c2.day)
    ensures c1 == c2
  {
    DayOfYearBounds(c1);
    DayOfYearBounds(c2);
    if c1.year < c2.year {
      DaysBeforeYearMonotone(c1.year, c2.year);
    } else if c2.year < c1.year {
      DaysBeforeYearMonotone(c2.year, c1.year);
    }
    assert c1.year == c2.year;
    if c1.month < c2.month {
      MonthsDisjoint(c1.year, c1.month, c2.month);
    } else if c2.month < c1.month {
      MonthsDisjoint(c1.year, c2.month, c1.month);
    }
  }

  lemma DayOfYearBounds(c: Civil)
    requires ValidCivil(c)
    ensures 0 <= DaysBeforeMonth(c.year, c.month) + c.day - 1 < DaysInYear(c.year)
  {
    DaysBeforeMonthStep(c.year, c.month);
    MonthsBeforeEnd(c.year, c.month + 1);
  }

  lemma MonthsBeforeEnd(y: int, m: int)
    requires 0 <= m <= 12
    ensures DaysBeforeMonth(y, m) <= DaysInYear(y)
  {
  }

  lemma MonthsDisjoint(y: int, a: int, b: int)
    requires 0 <= a < b < 12
    ensures DaysBeforeMonth(y, a) + DaysInMonth(y, a) <= DaysBeforeMonth(y, b)
  {
  }

  /** CivilFromDays undoes DaysFromCivil on every valid date. */
  lemma CivilRoundTrip(c: Civil)
    requires ValidCivil(c)
    ensures CivilFromDays(DaysFromCivil(c.year, c.month, c.day)) == c
  {
    var n := DaysFromCivil(c.year, c.month, c.day);
    DaysFromCivilInjective(CivilFromDays(n), c);
  }

  /** MakeDay is exact on valid dates and moves by whole days in its last argument. */
  lemma MakeDayOfCivil(c: Civil, k: int)
    requires ValidCivil(c)
    ensures MakeDay(c.year, c.month, c.day + k) == DaysFromCivil(c.year, c.month, c.day) + k
  {
  }
}
