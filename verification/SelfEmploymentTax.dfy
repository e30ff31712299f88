/** Self-employment tax, and Schedule AI Part II, which figures it on a period and then annualizes it. */
module SelfEmploymentTax {
  import opened Amounts

  /** Share of income that is net earnings, the least net earnings taxed, and the two rates. */
  datatype SeRates = SeRates(share: real, minimum: real, socialSecurity: real, medicare: real) {
    predicate Positive() {
      0.0 < share && 0.0 < minimum && 0.0 <= socialSecurity && 0.0 < medicare
    }
  }

  /** The part of income that is net earnings. */
  function Earnings(income: real, p: SeRates): real {
    income * p.share
  }

  function NetEarnings(income: real, p: SeRates): real {
    var earnings := if income > 0.0 then Earnings(income, p) else 0.0;
    if earnings < p.minimum then 0.0 else earnings
  }

  function SeTaxOn(earnings: real, room: real, p: SeRates): real {
    p.socialSecurity * Max(0.0, Min(earnings, room)) + p.medicare * earnings
  }

  function SeTax(income: real, wages: real, wageBase: real, p: SeRates): real {
    SeTaxOn(NetEarnings(income, p), wageBase - wages, p)
  }

  /** Whether earnings are too small to be taxed. */
  predicate BelowTheMinimum(income: real, p: SeRates) {
    Earnings(income, p) < p.minimum
  }

  function Annualize(amount: real, factor: real): real {
    amount * factor
  }

  /** Part II: the period's tax against the wage base for its months, times the column's factor. */
  function PartII(profit: real, wages: real, wageBase: real, months: real, factor: real, p: SeRates): real {
    Annualize(SeTax(profit, wages, wageBase * months / 12.0, p), factor)
  }

  /** Line 17: the annualized return's total with its self-employment tax swapped for Part II. */
  function Line17(total: real, profit: real, wages: real, wageBase: real, months: real, factor: real,
          p: SeRates): real {
    total - SeTax(Annualize(profit, factor), Annualize(wages, factor), wageBase, p)
      + PartII(profit, wages, wageBase, months, factor, p)
  }

  /** A further dollar bears both rates below the wage base left by wages, and Medicare alone above it. */
  lemma SocialSecurityStopsAtTheWageBase(x: real, y: real, room: real, p: SeRates)
    requires 0.0 <= x && 0.0 <= y
    ensures x <= room && y <= room ==>
              SeTaxOn(y, room, p) - SeTaxOn(x, room, p) == (p.socialSecurity + p.medicare) * (y - x)
    ensures room <= x && room <= y ==> SeTaxOn(y, room, p) - SeTaxOn(x, room, p) == p.medicare * (y - x)
  {
    Difference(p.medicare, x, y);
    Difference(p.socialSecurity, x, y);
    Difference(p.socialSecurity + p.medicare, x, y);
    SumOfRates(p.socialSecurity, p.medicare, y - x);
    assert x <= room && y <= room ==> Max(0.0, Min(x, room)) == x && Max(0.0, Min(y, room)) == y;
  }

  /** Wages use up the wage base first: what they leave bears Social Security, and all net earnings bear Medicare. */
  lemma WagesUseTheBase(income: real, wages: real, wageBase: real, p: SeRates)
    requires p.Positive()
    ensures var earnings := NetEarnings(income, p);
            && 0.0 <= earnings
            && (wages + earnings <= wageBase ==>
                  SeTax(income, wages, wageBase, p) == (p.socialSecurity + p.medicare) * earnings)
            && (wages <= wageBase <= wages + earnings ==>
                  SeTax(income, wages, wageBase, p) == p.socialSecurity * (wageBase - wages) + p.medicare * earnings)
            && (wageBase <= wages ==> SeTax(income, wages, wageBase, p) == p.medicare * earnings)
  {
    NetEarningsAre(income, p);
    hide NetEarnings, Earnings;
    SumOfRates(p.socialSecurity, p.medicare, NetEarnings(income, p));
  }

  lemma Difference(rate: real, x: real, y: real)
    ensures rate * (y - x) == rate * y - rate * x
  {
  }

  lemma SumOfRates(a: real, b: real, x: real)
    ensures (a + b) * x == a * x + b * x
  {
  }

  lemma SeTaxScales(earnings: real, room: real, factor: real, p: SeRates)
    requires 0.0 < factor
    ensures SeTaxOn(Annualize(earnings, factor), Annualize(room, factor), p)
              == Annualize(SeTaxOn(earnings, room, p), factor)
  {
    var counted := Max(0.0, Min(earnings, room));
    CountedScales(earnings, room, factor);
    Distribute(p.socialSecurity, counted, p.medicare, earnings, factor);
    hide Annualize;
  }

  lemma CountedScales(earnings: real, room: real, factor: real)
    requires 0.0 < factor
    ensures Max(0.0, Min(Annualize(earnings, factor), Annualize(room, factor)))
              == Annualize(Max(0.0, Min(earnings, room)), factor)
  {
    AnnualizeKeepsOrder(earnings, room, factor);
    AnnualizeKeepsOrder(0.0, earnings, factor);
    AnnualizeKeepsOrder(0.0, room, factor);
    AnnualizeNothing(factor);
    hide Annualize;
  }

  lemma AnnualizeKeepsOrder(x: real, y: real, factor: real)
    requires 0.0 < factor
    ensures x < y <==> Annualize(x, factor) < Annualize(y, factor)
  {
    hide Annualize;
    AnnualizeDifference(x, y, factor);
    AnnualizeKeepsSign(y - x, factor);
  }

  lemma AnnualizeDifference(x: real, y: real, factor: real)
    ensures Annualize(y, factor) - Annualize(x, factor) == Annualize(y - x, factor)
  {
  }

  lemma AnnualizeKeepsSign(x: real, factor: real)
    requires 0.0 < factor
    ensures 0.0 < x <==> 0.0 < Annualize(x, factor)
  {
    if 0.0 < x {
      PositiveProduct(x, factor);
    } else {
      LessTimesPrice(x, 0.0, factor);
    }
  }

  lemma AnnualizeNothing(factor: real)
    ensures Annualize(0.0, factor) == 0.0
  {
  }

  lemma Distribute(a: real, x: real, b: real, y: real, f: real)
    ensures a * Annualize(x, f) + b * Annualize(y, f) == Annualize(a * x + b * y, f)
  {
  }

  lemma ProratedRoom(wageBase: real, months: real, factor: real, wages: real)
    requires months * factor == 12.0
    ensures Annualize(wageBase * months / 12.0 - wages, factor) == wageBase - Annualize(wages, factor)
  {
    assert wageBase * months * factor == wageBase * (months * factor);
    assert wageBase * months / 12.0 * factor == wageBase * months * factor / 12.0;
  }

  lemma EarningsScale(profit: real, factor: real, p: SeRates)
    ensures Earnings(Annualize(profit, factor), p) == Annualize(Earnings(profit, p), factor)
  {
  }

  lemma NetEarningsAre(income: real, p: SeRates)
    requires p.Positive()
    ensures NetEarnings(income, p) == if BelowTheMinimum(income, p) then 0.0 else Earnings(income, p)
    ensures BelowTheMinimum(income, p) || 0.0 < Earnings(income, p)
  {
    if income <= 0.0 {
      LessTimesPrice(income, 0.0, p.share);
    }
  }

  lemma TaxIsPositive(earnings: real, room: real, p: SeRates)
    requires p.Positive()
    ensures SeTaxOn(0.0, room, p) == 0.0
    ensures 0.0 < earnings ==> 0.0 < SeTaxOn(earnings, room, p)
  {
    var counted := Max(0.0, Min(earnings, room));
    LessTimesPrice(0.0, p.socialSecurity, counted);
    if 0.0 < earnings {
      PositiveProduct(p.medicare, earnings);
    }
  }

  lemma Line17Is(total: real, profit: real, wages: real, wageBase: real, months: real, factor: real, p: SeRates)
    ensures PartII(profit, wages, wageBase, months, factor, p) ==
              Annualize(SeTaxOn(NetEarnings(profit, p), wageBase * months / 12.0 - wages, p), factor)
    ensures Line17(total, profit, wages, wageBase, months, factor, p) ==
              total - SeTaxOn(NetEarnings(Annualize(profit, factor), p), wageBase - Annualize(wages, factor), p)
                    + PartII(profit, wages, wageBase, months, factor, p)
  {
    hide SeTaxOn, NetEarnings, Annualize;
  }

  /**
   * Part II equals the self-employment tax on the annualized figures exactly when the period's and the year's net
   * earnings are on the same side of the minimum. On different sides the smaller one is not taxed at all.
   */
  lemma PartIIMatchesTheReturn(total: real, profit: real, wages: real, wageBase: real, months: real, factor: real,
          p: SeRates)
    requires p.Positive() && 0.0 < factor && months * factor == 12.0
    ensures Line17(total, profit, wages, wageBase, months, factor, p) == total
       <==> (BelowTheMinimum(profit, p) <==> BelowTheMinimum(Annualize(profit, factor), p))
    ensures BelowTheMinimum(profit, p) ==> PartII(profit, wages, wageBase, months, factor, p) == 0.0
  {
    hide *;
    var room, earnings := wageBase * months / 12.0 - wages, Earnings(profit, p);
    Line17Is(total, profit, wages, wageBase, months, factor, p);
    ProratedRoom(wageBase, months, factor, wages);
    EarningsScale(profit, factor, p);
    NetEarningsAre(profit, p);
    NetEarningsAre(Annualize(profit, factor), p);
    SeTaxScales(earnings, room, factor, p);
    TaxIsPositive(earnings, room, p);
    TaxIsPositive(Annualize(earnings, factor), Annualize(room, factor), p);
    AnnualizeNothing(factor);
    AnnualizeKeepsOrder(0.0, SeTaxOn(earnings, room, p), factor);
  }

  /** With the 2026 figures, $420 in the first quarter: nothing in Part II, $237.38 of tax on the year's $1,680. */
  lemma SmallQuarterDropsTheTax(total: real)
    ensures var p := SeRates(0.9235, 400.0, 0.124, 0.029);
            Line17(total, 420.0, 0.0, 184500.0, 3.0, 4.0, p) == total - 237.376440
  {
    var p := SeRates(0.9235, 400.0, 0.124, 0.029);
    Figures();
    hide *;
    Line17Is(total, 420.0, 0.0, 184500.0, 3.0, 4.0, p);
    AnnualizeNothing(4.0);
  }

  lemma Figures()
    ensures var p := SeRates(0.9235, 400.0, 0.124, 0.029);
            && NetEarnings(420.0, p) == 0.0 && SeTaxOn(0.0, 184500.0 * 3.0 / 12.0 - 0.0, p) == 0.0
            && Annualize(420.0, 4.0) == 1680.0 && NetEarnings(1680.0, p) == 1551.48
            && SeTaxOn(1551.48, 184500.0 - 0.0, p) == 237.376440
  {
    assert 420.0 * 0.9235 == 387.87 && 1680.0 * 0.9235 == 1551.48;
  }
}
