/**
 * Day numbers and years of the proleptic Gregorian calendar, as the tax oracle uses them:
 * day 1 is January 1 of year 1, so a date is an ordinal and date arithmetic is integer arithmetic.
 */
module Calendar {
  type Date = d: int | 1 <= d witness 1

  function DaysInYear(y: int): (days: int)
    ensures 365 <= days <= 366
  {
    if (y % 4 == 0 && y % 100 != 0) || y % 400 == 0 then 366 else 365
  }

  /** The ordinal of December 31 of year `y`. */
  function Dec31(y: nat): nat {
    365 * y + Fours(y) - Hundreds(y) + FourHundreds(y)
  }

  function Fours(y: nat): nat {
    y / 4
  }

  function Hundreds(y: nat): nat {
    y / 100
  }

  function FourHundreds(y: nat): nat {
    y / 400
  }

  /** The leap-year rule is the calendar's: it counts the days between two year ends. */
  lemma YearLength(y: nat)
    requires 1 <= y
    ensures DaysInYear(y) == Dec31(y) - Dec31(y - 1)
  {
    Quarters(y);
    Centuries(y);
    FourCenturies(y);
    Divisors(y);
    hide Fours, Hundreds, FourHundreds;
  }

  lemma Divisors(y: nat)
    ensures y % 400 == 0 ==> y % 100 == 0
    ensures y % 100 == 0 ==> y % 4 == 0
  {
    if y % 100 == 0 {
      MultipleOfFour(y, y / 100);
    }
  }

  lemma MultipleOfFour(y: nat, centuries: nat)
    requires y == 100 * centuries
    ensures y % 4 == 0
  {
    assert y == 4 * (25 * centuries);
  }

  // Each quotient steps by one exactly at its multiples.

  lemma Quarters(y: nat)
    requires 1 <= y
    ensures Fours(y) - Fours(y - 1) == if y % 4 == 0 then 1 else 0
  {
  }

  lemma Centuries(y: nat)
    requires 1 <= y
    ensures Hundreds(y) - Hundreds(y - 1) == if y % 100 == 0 then 1 else 0
  {
  }

  lemma FourCenturies(y: nat)
    requires 1 <= y
    ensures FourHundreds(y) - FourHundreds(y - 1) == if y % 400 == 0 then 1 else 0
  {
  }

  lemma DaysOutnumberYears(y: nat)
    ensures y <= Dec31(y)
  {
  }

  /**
   * The first year, from `y` on, that does not end before day `d`. A year ends after at least as many days as years.
   */
  function FirstYearFrom(d: Date, y: nat): nat
    decreases d - y
  {
    if y < d && Dec31(y) < d then FirstYearFrom(d, y + 1) else y
  }

  lemma {:induction false} FirstYearHolds(d: Date, y: nat)
    requires 1 <= y && Dec31(y - 1) < d
    ensures 1 <= FirstYearFrom(d, y) && Dec31(FirstYearFrom(d, y) - 1) < d <= Dec31(FirstYearFrom(d, y))
    decreases d - y
  {
    hide Dec31;
    DaysOutnumberYears(y);
    if Dec31(y) < d {
      FirstYearHolds(d, y + 1);
    }
  }

  /** The year holding day `d`. */
  function YearOf(d: Date): (y: nat)
    ensures 1 <= y && Dec31(y - 1) < d <= Dec31(y)
  {
    FirstYearHolds(d, 1);
    FirstYearFrom(d, 1)
  }

  lemma Dec31NonDecreasing(y: nat, z: nat)
    ensures y <= z ==> Dec31(y) <= Dec31(z)
  {
  }

  /** A day belongs to one year only. */
  lemma YearOfUnique(d: Date, y: nat)
    requires 1 <= y && Dec31(y - 1) < d <= Dec31(y)
    ensures YearOf(d) == y
  {
    var z := YearOf(d);
    hide Dec31, YearOf;
    Dec31NonDecreasing(z, y - 1);
    Dec31NonDecreasing(y, z - 1);
  }
}
