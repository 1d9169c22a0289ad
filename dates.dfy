/**
 * The calendar behind `pd.to_datetime(str(tourney_date), format='%Y%m%d', errors='coerce')`
 * and the day differences the aggregations take between two parsed dates.
 * A date is the integer yyyymmdd; a day number counts days from 0001-01-01 in the proleptic
 * Gregorian calendar, so the difference of two day numbers is `(end - start).days`.
 */
module Dates {

  function YearPart(d: nat): nat { d / 10000 }

  function MonthPart(d: nat): nat { d / 100 % 100 }

  function DayPart(d: nat): nat { d % 100 }

  predicate Leap(y: nat)
  {
    (y % 4 == 0 && y % 100 != 0) || y % 400 == 0
  }

  function YearLength(y: nat): (n: nat)
    ensures n == 365 || n == 366
  {
    if Leap(y) then 366 else 365
  }

  function MonthLength(y: nat, m: nat): (n: nat)
    requires 1 <= m <= 12
    ensures 28 <= n <= 31
  {
    if m == 2 then (if Leap(y) then 29 else 28)
    else if m == 4 || m == 6 || m == 9 || m == 11 then 30
    else 31
  }

  /**
   * A yyyymmdd integer the parser turns into a timestamp: eight digits naming a real
   * calendar day inside the range of a nanosecond timestamp (1677-09-22 .. 2262-04-11).
   * Any other value becomes a missing date.
   */
  predicate ValidDate(d: nat)
  {
    16770922 <= d <= 22620411
    && 1 <= MonthPart(d) <= 12
    && 1 <= DayPart(d) <= MonthLength(YearPart(d), MonthPart(d))
  }

  /** Days in the years before `y`. */
  function DaysBeforeYear(y: nat): nat
    requires y >= 1
  {
    365 * (y - 1) + (y - 1) / 4 - (y - 1) / 100 + (y - 1) / 400
  }

  /** Days in the months of year `y` before month `m`. */
  function DaysBeforeMonth(y: nat, m: nat): (n: nat)
    requires 1 <= m <= 12
    decreases m
  {
    if m == 1 then 0 else DaysBeforeMonth(y, m - 1) + MonthLength(y, m - 1)
  }

  /** The number of the day `d` names, counting 0001-01-01 as day 0. */
  function DayNumber(d: nat): nat
    requires ValidDate(d)
  {
    DaysBeforeYear(YearPart(d)) + DaysBeforeMonth(YearPart(d), MonthPart(d)) + DayPart(d) - 1
  }

  /** Each year adds its own length to the day count. */
  lemma YearStep(y: nat)
    requires y >= 1
    ensures DaysBeforeYear(y + 1) == DaysBeforeYear(y) + YearLength(y)
  {
    var x := y - 1;
    assert (x + 1) / 4 == x / 4 + (if y % 4 == 0 then 1 else 0);
    assert (x + 1) / 100 == x / 100 + (if y % 100 == 0 then 1 else 0);
    assert (x + 1) / 400 == x / 400 + (if y % 400 == 0 then 1 else 0);
  }

  /** Every day of a year comes before every day of a later year. */
  lemma {:induction false} YearsApart(y1: nat, y2: nat)
    requires 1 <= y1 < y2
    ensures DaysBeforeYear(y1) + YearLength(y1) <= DaysBeforeYear(y2)
    decreases y2 - y1
  {
    YearStep(y1);
    if y1 + 1 < y2 {
      YearsApart(y1 + 1, y2);
    }
  }

  /** The months of a year fill it: the days before December plus December make the year. */
  lemma {:induction false} MonthsApart(y: nat, m1: nat, m2: nat)
    requires 1 <= m1 < m2 <= 12
    ensures DaysBeforeMonth(y, m1) + MonthLength(y, m1) <= DaysBeforeMonth(y, m2)
    decreases m2 - m1
  {
    if m1 + 1 < m2 {
      MonthsApart(y, m1 + 1, m2);
    }
  }

  /** December ends the year. */
  lemma DecemberEndsYear(y: nat)
    ensures DaysBeforeMonth(y, 12) + MonthLength(y, 12) == YearLength(y)
  {
  }

  /**
   * Day numbers follow the integer order of valid dates, strictly: a later date is a later
   * day, so `(end - start).days` is never negative and is 0 only for the same date.
   */
  lemma DayNumberMonotone(a: nat, b: nat)
    requires ValidDate(a) && ValidDate(b) && a < b
    ensures DayNumber(a) < DayNumber(b)
  {
    var ya, yb := YearPart(a), YearPart(b);
    var ma, mb := MonthPart(a), MonthPart(b);
    PartsOrder(a, b);
    if ya < yb {
      if ma < 12 {
        MonthsApart(ya, ma, 12);
      }
      DecemberEndsYear(ya);
      YearsApart(ya, yb);
    } else if ma < mb {
      MonthsApart(ya, ma, mb);
    }
  }

  /** Dates in order have their parts in lexicographic order. */
  lemma PartsOrder(a: nat, b: nat)
    requires a < b
    ensures YearPart(a) < YearPart(b)
      || (YearPart(a) == YearPart(b)
          && (MonthPart(a) < MonthPart(b) || (MonthPart(a) == MonthPart(b) && DayPart(a) < DayPart(b))))
  {
    Digits(a);
    Digits(b);
  }

  /** A date is its year, month and day written side by side, so the parts order the dates. */
  lemma Digits(d: nat)
    ensures d == YearPart(d) * 10000 + MonthPart(d) * 100 + DayPart(d)
    ensures MonthPart(d) < 100 && DayPart(d) < 100
  {
    assert d == (d / 100) * 100 + d % 100;
    assert d / 100 == (d / 10000) * 100 + (d / 100) % 100;
  }

  /**
   * `(end - start).days` for dates in order: never negative, and 0 exactly for the same date.
   */
  lemma DayNumberOrder(a: nat, b: nat)
    requires ValidDate(a) && ValidDate(b) && a <= b
    ensures DayNumber(a) <= DayNumber(b)
    ensures DayNumber(a) == DayNumber(b) <==> a == b
  {
    if a < b {
      DayNumberMonotone(a, b);
    }
  }
}
