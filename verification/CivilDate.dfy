/**
 Days and civil dates, as section 21.4.1 of ECMA-262 defines them: a day number
 counts days from 1970-01-01 in the proleptic Gregorian calendar.
 */
module CivilDate {

  predicate Leap(y: int) {
    y % 4 == 0 && (y % 100 != 0 || y % 400 == 0)
  }

  function DaysInYear(y: int): int {
    if Leap(y) then 366 else 365
  }

  /** The day number of the first day of a year, year by year from 1970. */
  function DayFromYear(y: int): int
    decreases if y >= 1970 then y - 1970 else 1970 - y
  {
    if y == 1970 then 0
    else if y > 1970 then DayFromYear(y - 1) + DaysInYear(y - 1)
    else DayFromYear(y + 1) - DaysInYear(y)
  }

  /** The closed form that the standard gives for it. */
  function DayFromYearFormula(y: int): int {
    365 * (y - 1970) + (y - 1969) / 4 - (y - 1901) / 100 + (y - 1601) / 400
  }

  lemma FormulaSteps(y: int)
    ensures DayFromYearFormula(y + 1) == DayFromYearFormula(y) + DaysInYear(y)
  {
    FourthYears(y);
    HundredthYears(y);
    FourHundredthYears(y);
    Multiples(y);
  }

  lemma FourthYears(y: int)
    ensures (y - 1968) / 4 == (y - 1969) / 4 + if y % 4 == 0 then 1 else 0
  {
  }

  lemma HundredthYears(y: int)
    ensures (y - 1900) / 100 == (y - 1901) / 100 + if y % 100 == 0 then 1 else 0
  {
    var q, r := (y - 1901) / 100, (y - 1901) % 100;
    if r == 99 {
      Hundreds(y, q + 20, 0);
      Hundreds(y - 1900, q + 1, 0);
    } else {
      Hundreds(y, q + 19, r + 1);
      Hundreds(y - 1900, q, r + 1);
    }
  }

  lemma Hundreds(x: int, q: int, r: int)
    requires x == 100 * q + r && 0 <= r < 100
    ensures x / 100 == q && x % 100 == r
  {
  }

  lemma FourHundreds(x: int, q: int, r: int)
    requires x == 400 * q + r && 0 <= r < 400
    ensures x / 400 == q && x % 400 == r
  {
  }

  lemma Multiples(y: int)
    ensures y % 400 == 0 ==> y % 100 == 0
    ensures y % 100 == 0 ==> y % 4 == 0
  {
    if y % 400 == 0 {
      Hundreds(y, 4 * (y / 400), 0);
    }
    if y % 100 == 0 {
      assert y == 4 * (25 * (y / 100));
    }
  }

  lemma FourHundredthYears(y: int)
    ensures (y - 1600) / 400 == (y - 1601) / 400 + if y % 400 == 0 then 1 else 0
  {
    var q, r := (y - 1601) / 400, (y - 1601) % 400;
    if r == 399 {
      FourHundreds(y, q + 5, 0);
      FourHundreds(y - 1600, q + 1, 0);
    } else {
      FourHundreds(y, q + 4, r + 1);
      FourHundreds(y - 1600, q, r + 1);
    }
  }

  lemma {:induction false} FormulaAgrees(y: int)
    ensures DayFromYear(y) == DayFromYearFormula(y)
    decreases if y >= 1970 then y - 1970 else 1970 - y
  {
    if y > 1970 {
      FormulaAgrees(y - 1);
      FormulaSteps(y - 1);
    } else if y < 1970 {
      FormulaAgrees(y + 1);
      FormulaSteps(y);
    }
  }

  /** Consecutive years are a year's days apart. */
  lemma YearSteps(y: int)
    ensures DayFromYear(y + 1) == DayFromYear(y) + DaysInYear(y)
  {
  }

  lemma {:induction false} YearsAscend(y: int, z: int)
    requires y <= z
    ensures DayFromYear(z) >= DayFromYear(y) + 365 * (z - y)
    decreases z - y
  {
    if y < z {
      YearSteps(z - 1);
      YearsAscend(y, z - 1);
    }
  }

  /** The year of a day, found upwards from a year that does not start after it. */
  function YearFrom(day: int, y: int): (r: int)
    requires DayFromYear(y) <= day
    ensures DayFromYear(r) <= day < DayFromYear(r + 1)
    decreases day - DayFromYear(y)
  {
    YearSteps(y);
    if day < DayFromYear(y + 1) then y else YearFrom(day, y + 1)
  }

  function YearOf(day: int): (r: int)
    ensures DayFromYear(r) <= day < DayFromYear(r + 1)
  {
    if day >= 0 then YearFrom(day, 1970)
    else
      YearsAscend(1970 + day, 1970);
      YearFrom(day, 1970 + day)
  }

  /** A day is in one year only. */
  lemma YearUnique(day: int, y: int)
    requires DayFromYear(y) <= day < DayFromYear(y + 1)
    ensures YearOf(day) == y
  {
    var r := YearOf(day);
    if r < y {
      YearsAscend(r + 1, y);
    } else if r > y {
      YearsAscend(y + 1, r);
    }
  }

  /** Months count from zero. */
  function DaysInMonth(leap: bool, m: nat): nat {
    if m == 1 then (if leap then 29 else 28)
    else if m == 3 || m == 5 || m == 8 || m == 10 then 30
    else 31
  }

  /** Days of the year before month `m`; `m == 12` is the whole year. */
  function MonthStart(leap: bool, m: nat): nat {
    if m == 0 then 0 else MonthStart(leap, m - 1) + DaysInMonth(leap, m - 1)
  }

  /** The months begin where the table of the standard says. */
  lemma MonthTable(leap: bool)
    ensures var l := if leap then 1 else 0;
      && MonthStart(leap, 1) == 31 && MonthStart(leap, 2) == 59 + l && MonthStart(leap, 3) == 90 + l
      && MonthStart(leap, 4) == 120 + l && MonthStart(leap, 5) == 151 + l && MonthStart(leap, 6) == 181 + l
      && MonthStart(leap, 7) == 212 + l && MonthStart(leap, 8) == 243 + l && MonthStart(leap, 9) == 273 + l
      && MonthStart(leap, 10) == 304 + l && MonthStart(leap, 11) == 334 + l && MonthStart(leap, 12) == 365 + l
  {
    var l := if leap then 1 else 0;
    assert MonthStart(leap, 1) == 31;
    assert MonthStart(leap, 2) == 59 + l;
    assert MonthStart(leap, 4) == 120 + l;
    assert MonthStart(leap, 6) == 181 + l;
    assert MonthStart(leap, 8) == 243 + l;
    assert MonthStart(leap, 10) == 304 + l;
  }

  lemma YearOfMonths(leap: bool)
    ensures MonthStart(leap, 12) == if leap then 366 else 365
  {
    MonthTable(leap);
  }

  lemma {:induction false} MonthsAscend(leap: bool, m: nat, n: nat)
    requires m <= n
    ensures MonthStart(leap, m) <= MonthStart(leap, n)
  {
    if m < n {
      MonthsAscend(leap, m, n - 1);
    }
  }

  /** A date with its month counted from zero. */
  datatype Civil = Civil(year: int, month: int, day: int)

  predicate Valid(c: Civil) {
    0 <= c.month < 12 && 1 <= c.day <= DaysInMonth(Leap(c.year), c.month)
  }

  /** The day number of a date whose month and day may be out of range. */
  function MakeDay(year: int, month: int, day: int): int {
    var y, m := year + month / 12, month % 12;
    DayFromYear(y) + MonthStart(Leap(y), m) + day - 1
  }

  function MonthOf(leap: bool, dayOfYear: int): (m: nat)
    requires 0 <= dayOfYear < MonthStart(leap, 12)
    ensures m < 12 && MonthStart(leap, m) <= dayOfYear < MonthStart(leap, m + 1)
  {
    MonthFrom(leap, dayOfYear, 0)
  }

  function MonthFrom(leap: bool, dayOfYear: int, m: nat): (r: nat)
    requires m < 12 && MonthStart(leap, m) <= dayOfYear < MonthStart(leap, 12)
    ensures m <= r < 12 && MonthStart(leap, r) <= dayOfYear < MonthStart(leap, r + 1)
    decreases 12 - m
  {
    if dayOfYear < MonthStart(leap, m + 1) then m else MonthFrom(leap, dayOfYear, m + 1)
  }

  /** The date of a day counted from the start of its year. */
  function CivilIn(year: int, dayOfYear: int): (c: Civil)
    requires 0 <= dayOfYear < MonthStart(Leap(year), 12)
    ensures Valid(c) && c.year == year && MonthStart(Leap(year), c.month) + c.day - 1 == dayOfYear
  {
    var m := MonthOf(Leap(year), dayOfYear);
    Civil(year, m, dayOfYear - MonthStart(Leap(year), m) + 1)
  }

  function CivilOf(day: int): (c: Civil)
    ensures Valid(c)
  {
    YearSteps(YearOf(day));
    YearOfMonths(Leap(YearOf(day)));
    CivilIn(YearOf(day), day - DayFromYear(YearOf(day)))
  }

  /** The day number of a valid date. */
  function DayOf(c: Civil): int
    requires Valid(c)
  {
    DayFromYear(c.year) + DayInYear(c)
  }

  /** The days of its year before a valid date. */
  function DayInYear(c: Civil): (d: int)
    requires Valid(c)
    ensures 0 <= d < DaysInYear(c.year) && d < MonthStart(Leap(c.year), 12)
  {
    MonthsAscend(Leap(c.year), c.month + 1, 12);
    YearOfMonths(Leap(c.year));
    MonthStart(Leap(c.year), c.month) + c.day - 1
  }

  lemma MakeDayOfValid(c: Civil)
    requires Valid(c)
    ensures MakeDay(c.year, c.month, c.day) == DayOf(c)
  {
    assert c.month / 12 == 0 && c.month % 12 == c.month;
  }

  /** A day of the year is in one month only. */
  lemma MonthUnique(leap: bool, dayOfYear: int, m: nat, n: nat)
    requires MonthStart(leap, m) <= dayOfYear < MonthStart(leap, m + 1)
    requires MonthStart(leap, n) <= dayOfYear < MonthStart(leap, n + 1)
    ensures m == n
  {
    if m < n {
      MonthsAscend(leap, m + 1, n);
    } else if n < m {
      MonthsAscend(leap, n + 1, m);
    }
  }

  lemma CivilInOfDay(c: Civil)
    requires Valid(c)
    ensures CivilIn(c.year, DayInYear(c)) == c
  {
    var m := MonthOf(Leap(c.year), DayInYear(c));
    MonthUnique(Leap(c.year), DayInYear(c), m, c.month);
  }

  lemma YearOfDay(c: Civil)
    requires Valid(c)
    ensures YearOf(DayOf(c)) == c.year
  {
    YearSteps(c.year);
    YearUnique(DayOf(c), c.year);
  }

  /** Every valid date is the date of its own day. */
  lemma CivilOfDay(c: Civil)
    requires Valid(c)
    ensures CivilOf(DayOf(c)) == c
  {
    YearOfDay(c);
    CivilInOfDay(c);
  }

  /** Every day is the day of its own date. */
  lemma DayOfCivil(day: int)
    ensures DayOf(CivilOf(day)) == day
  {
    var y := YearOf(day);
    YearSteps(y);
    YearOfMonths(Leap(y));
    var c := CivilIn(y, day - DayFromYear(y));
    assert DayInYear(c) == day - DayFromYear(y);
  }
}
