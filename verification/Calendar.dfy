/**
 The civil calendar behind `Date.UTC` and `new Date(...).getUTC*`, which
 packages/core/src/cron-expression.ts relies on: a closed formula from a date to
 its day number, and the dates counted out day by day from 1970-01-01.
 */
module Calendar {
  datatype Civil = Civil(year: int, month: int, day: int)

  predicate Leap(y: int) {
    y % 4 == 0 && (y % 100 != 0 || y % 400 == 0)
  }

  function MonthLength(y: int, m: int): (n: int)
    ensures 28 <= n <= 31
  {
    if m == 2 then (if Leap(y) then 29 else 28)
    else if m in {4, 6, 9, 11} then 30
    else 31
  }

  predicate Valid(c: Civil) {
    1 <= c.month <= 12 && 1 <= c.day <= MonthLength(c.year, c.month)
  }

  function NextDay(c: Civil): (n: Civil)
    requires Valid(c)
    ensures Valid(n)
  {
    if c.day < MonthLength(c.year, c.month) then c.(day := c.day + 1)
    else if c.month < 12 then Civil(c.year, c.month + 1, 1)
    else Civil(c.year + 1, 1, 1)
  }

  function PreviousDay(c: Civil): (p: Civil)
    requires Valid(c)
    ensures Valid(p) && NextDay(p) == c
  {
    if c.day > 1 then c.(day := c.day - 1)
    else if c.month > 1 then Civil(c.year, c.month - 1, MonthLength(c.year, c.month - 1))
    else Civil(c.year - 1, 12, 31)
  }

  // ----- the closed formula -----

  /** Leap years up to and including year `y`. */
  function LeapYears(y: int): int {
    y / 4 - y / 100 + y / 400
  }

  function DaysBeforeYear(y: int): int {
    365 * (y - 1970) + LeapYears(y - 1) - LeapYears(1969)
  }

  function DaysBeforeMonth(y: int, m: int): int
    requires 1 <= m <= 12
    decreases m
  {
    if m == 1 then 0 else DaysBeforeMonth(y, m - 1) + MonthLength(y, m - 1)
  }

  /** `Date.UTC(year, month - 1, day)` in days; the day may lie outside its month. */
  function DayNumber(y: int, m: int, d: int): int
    requires 1 <= m <= 12
  {
    DaysBeforeYear(y) + DaysBeforeMonth(y, m) + d - 1
  }

  lemma LeapStep(y: int)
    ensures LeapYears(y) - LeapYears(y - 1) == (if Leap(y) then 1 else 0)
  {
    DivStep(y, 4);
    DivStep(y, 100);
    DivStep(y, 400);
    assert y % 400 == 0 ==> y % 100 == 0 by {
      assert y == 400 * (y / 400) + y % 400;
      if y % 400 == 0 {
        assert y == 100 * (4 * (y / 400));
        Multiple(4 * (y / 400), 100);
      }
    }
    assert y % 100 == 0 ==> y % 4 == 0 by {
      assert y == 100 * (y / 100) + y % 100;
      if y % 100 == 0 {
        assert y == 4 * (25 * (y / 100));
        Multiple(25 * (y / 100), 4);
      }
    }
  }

  lemma Multiple(k: int, n: int)
    requires n in {4, 100}
    ensures (n * k) % n == 0
  {
  }

  lemma DivStep(y: int, n: int)
    requires n in {4, 100, 400}
    ensures y / n - (y - 1) / n == (if y % n == 0 then 1 else 0)
  {
  }

  lemma YearLength(y: int)
    ensures DaysBeforeMonth(y, 12) + 31 == 365 + (if Leap(y) then 1 else 0)
  {
    assert DaysBeforeMonth(y, 2) == 31;
    assert DaysBeforeMonth(y, 4) == 90 + (if Leap(y) then 1 else 0);
    assert DaysBeforeMonth(y, 6) == 151 + (if Leap(y) then 1 else 0);
    assert DaysBeforeMonth(y, 8) == 212 + (if Leap(y) then 1 else 0);
    assert DaysBeforeMonth(y, 10) == 273 + (if Leap(y) then 1 else 0);
  }

  /** The formula counts days: the next day's number is one more. */
  lemma NextDayNumber(c: Civil)
    requires Valid(c)
    ensures var n := NextDay(c); DayNumber(n.year, n.month, n.day) == DayNumber(c.year, c.month, c.day) + 1
  {
    LeapStep(c.year);
    YearLength(c.year);
  }

  // ----- the dates, counted out -----

  /** The date `n` days after 1970-01-01. */
  function CivilOf(n: int): (c: Civil)
    ensures Valid(c)
    decreases if n < 0 then -n else n
  {
    if n == 0 then Civil(1970, 1, 1)
    else if n > 0 then NextDay(CivilOf(n - 1))
    else PreviousDay(CivilOf(n + 1))
  }

  lemma CivilStep(n: int)
    ensures CivilOf(n + 1) == NextDay(CivilOf(n))
  {
    if n < 0 {
      assert CivilOf(n) == PreviousDay(CivilOf(n + 1));
    }
  }

  lemma EpochDay()
    ensures CivilOf(0) == Civil(1970, 1, 1) && DayNumber(1970, 1, 1) == 0
  {
  }

  /** The formula and the count agree. */
  lemma {:induction false} DayNumberOfCivil(n: int)
    ensures var c := CivilOf(n); DayNumber(c.year, c.month, c.day) == n
    decreases if n < 0 then -n else n
  {
    hide DayNumber, NextDay, PreviousDay, MonthLength, Leap;
    if n == 0 {
      EpochDay();
    } else if n > 0 {
      DayNumberOfCivil(n - 1);
      NextDayNumber(CivilOf(n - 1));
    } else if n < 0 {
      DayNumberOfCivil(n + 1);
      NextDayNumber(CivilOf(n));
      CivilStep(n);
    }
  }

  predicate Before(a: Civil, b: Civil) {
    a.year < b.year || (a.year == b.year && (a.month < b.month || (a.month == b.month && a.day < b.day)))
  }

  lemma {:induction false} MonthsAscend(y: int, m: int, m': int)
    requires 1 <= m < m' <= 12
    ensures DaysBeforeMonth(y, m) + MonthLength(y, m) <= DaysBeforeMonth(y, m')
    decreases m'
  {
    if m < m' - 1 {
      MonthsAscend(y, m, m' - 1);
    }
  }

  lemma {:induction false} YearsAscend(y: int, y': int)
    requires y < y'
    ensures DaysBeforeYear(y) + 365 + (if Leap(y) then 1 else 0) <= DaysBeforeYear(y')
    decreases y' - y
  {
    if y < y' - 1 {
      YearsAscend(y, y' - 1);
      LeapStep(y' - 1);
    } else {
      LeapStep(y);
    }
  }

  /** Later dates have larger day numbers. */
  lemma DatesAscend(a: Civil, b: Civil)
    requires Valid(a) && Valid(b) && Before(a, b)
    ensures DayNumber(a.year, a.month, a.day) < DayNumber(b.year, b.month, b.day)
  {
    if a.year < b.year {
      YearsAscend(a.year, b.year);
      YearLength(a.year);
      if a.month < 12 {
        MonthsAscend(a.year, a.month, 12);
      }
      if b.month > 1 {
        MonthsAscend(b.year, 1, b.month);
      }
    } else if a.month < b.month {
      MonthsAscend(a.year, a.month, b.month);
    }
  }

  /** Every valid date is counted: `Date.UTC` and the `getUTC*` fields are inverse. */
  lemma CivilOfDayNumber(c: Civil)
    requires Valid(c)
    ensures CivilOf(DayNumber(c.year, c.month, c.day)) == c
  {
    var n := DayNumber(c.year, c.month, c.day);
    var b := CivilOf(n);
    DayNumberOfCivil(n);
    if Before(b, c) {
      DatesAscend(b, c);
    } else if Before(c, b) {
      DatesAscend(c, b);
    }
  }

  /** Advancing one day through `Date.UTC(y, m0, d + 1)` is the calendar's next day, also across months and years. */
  lemma DayAfter(c: Civil)
    requires Valid(c)
    ensures CivilOf(DayNumber(c.year, c.month, c.day + 1)) == NextDay(c)
  {
    hide CivilOf, NextDay, DaysBeforeYear, DaysBeforeMonth;
    CivilOfDayNumber(c);
    CivilStep(DayNumber(c.year, c.month, c.day));
    assert DayNumber(c.year, c.month, c.day + 1) == DayNumber(c.year, c.month, c.day) + 1;
  }
}
