/** The section 199A deduction for one business: the wage limit phased in over a range of taxable income. */
module QbiDeduction {
  import opened Wrappers
  import opened Amounts

  /** The threshold and the range above it, the deduction rate, and the rates of the two wage limits. */
  datatype QbiRules = QbiRules(threshold: real, range: real, rate: real, wages: real, lowWages: real, property: real)

  datatype Business = Business(income: real, wages: real, property: Option<real>)

  function PhaseIn(taxableIncome: real, q: QbiRules): (p: real)
    requires 0.0 < q.range
    ensures 0.0 <= p <= 1.0
  {
    Min(1.0, Max(0.0, (taxableIncome - q.threshold) / q.range))
  }

  function Tentative(b: Business, q: QbiRules): real {
    q.rate * Max(0.0, b.income)
  }

  function WageLimit(b: Business, q: QbiRules): real {
    Max(q.wages * b.wages, if b.property.Some? then q.lowWages * b.wages + q.property * b.property.value else 0.0)
  }

  /** The component once the phase-in is known. */
  function PhasedIn(b: Business, phase: real, q: QbiRules): real {
    var tentative, limit := Tentative(b, q), WageLimit(b, q);
    if phase <= 0.0 || b.income <= 0.0 || tentative <= limit then tentative
    else if phase >= 1.0 then limit
    else tentative - PhasedOut(tentative - limit, phase)
  }

  /** The part of the excess over the wage limit that is lost. */
  function PhasedOut(excess: real, phase: real): real {
    excess * phase
  }

  /** A specified service business keeps only its applicable share of income, wages and property. */
  function Applicable(b: Business, share: real): Business {
    Business(Part(b.income, share), Part(b.wages, share),
      match b.property case None => None case Some(p) => Some(Part(p, share)))
  }

  function Part(amount: real, share: real): real {
    amount * share
  }

  function Component(b: Business, taxableIncome: real, service: bool, q: QbiRules): real
    requires 0.0 < q.range
  {
    var phase := PhaseIn(taxableIncome, q);
    if !service then PhasedIn(b, phase, q)
    else if phase >= 1.0 then 0.0
    else PhasedIn(Applicable(b, 1.0 - phase), phase, q)
  }

  // ---------- What the limits are ----------

  /** The phase-in starts above the threshold, ends a range later, and is even in between. */
  lemma PhaseInIs(taxableIncome: real, q: QbiRules)
    requires 0.0 < q.range
    ensures var phase := PhaseIn(taxableIncome, q);
            && (phase == 0.0 <==> taxableIncome <= q.threshold)
            && (phase == 1.0 <==> q.threshold + q.range <= taxableIncome)
            && (q.threshold <= taxableIncome <= q.threshold + q.range ==>
                 phase * q.range == taxableIncome - q.threshold)
  {
    ShareOfRange(taxableIncome - q.threshold, q.range);
  }

  lemma ShareOfRange(above: real, range: real)
    requires 0.0 < range
    ensures above / range * range == above
    ensures above / range <= 0.0 <==> above <= 0.0
    ensures 1.0 <= above / range <==> range <= above
  {
    var x := above / range;
    assert x * range == above && (1.0 - x) * range == range - above;
    if 0.0 < x { PositiveProduct(x, range); } else { LessTimesPrice(x, 0.0, range); }
    if x < 1.0 { PositiveProduct(1.0 - x, range); } else { LessTimesPrice(1.0 - x, 0.0, range); }
  }

  /**
   * The wage limit is the larger share of the wages alone; property raises it by what its own share exceeds the part of
   * the wages given up for it.
   */
  lemma WhichWageLimit(b: Business, q: QbiRules)
    ensures b.property.Some? ==>
              WageLimit(b, q) == q.wages * b.wages
                                   + Max(0.0, q.property * b.property.value - (q.wages - q.lowWages) * b.wages)
    ensures b.property.None? && 0.0 <= b.wages && 0.0 <= q.wages ==> WageLimit(b, q) == q.wages * b.wages
  {
    assert (q.wages - q.lowWages) * b.wages == q.wages * b.wages - q.lowWages * b.wages;
    if 0.0 <= b.wages && 0.0 <= q.wages { LessTimesPrice(0.0, b.wages, q.wages); }
  }

  /** Below the threshold the rate applies to the income; above the range the wage limit caps it or excludes it. */
  lemma OutsideTheRange(b: Business, taxableIncome: real, q: QbiRules)
    requires 0.0 < q.range
    ensures taxableIncome <= q.threshold ==>
              && Component(b, taxableIncome, false, q) == q.rate * Max(0.0, b.income)
              && Component(b, taxableIncome, true, q) == q.rate * Max(0.0, b.income)
    ensures q.threshold + q.range <= taxableIncome ==>
              && Component(b, taxableIncome, true, q) == 0.0
              && (0.0 < b.income ==>
                    Component(b, taxableIncome, false, q) == Min(q.rate * b.income, WageLimit(b, q)))
  {
    hide PhaseIn, WageLimit;
    PhaseInIs(taxableIncome, q);
    WholeShare(b.income);
  }

  lemma WholeShare(x: real)
    ensures Part(x, 1.0) == x
  {
  }

  /** The joint figures of 2026: half the wages against a quarter of them and 2.5% of property, halfway and beyond. */
  lemma JointFigures()
    ensures var q := QbiRules(403500.0, 150000.0, 0.20, 0.50, 0.25, 0.025);
            var b := Business(300000.0, 40000.0, Some(1000000.0));
            && WageLimit(b, q) == 35000.0 && WageLimit(b.(property := None), q) == 20000.0
            && Component(b, 478500.0, false, q) == 47500.0 && Component(b, 553500.0, false, q) == 35000.0
  {
  }

  lemma PhaseInGrows(x: real, y: real, q: QbiRules)
    requires 0.0 < q.range && x <= y
    ensures PhaseIn(x, q) <= PhaseIn(y, q)
  {
    assert (y - q.threshold) / q.range - (x - q.threshold) / q.range == (y - x) / q.range >= 0.0;
  }

  /**
   * Outside the service case the component is never more than the tentative amount nor less than the smaller of the
   * two.
   */
  lemma BetweenTheLimits(b: Business, phase: real, q: QbiRules)
    requires 0.0 <= phase <= 1.0
    ensures Min(Tentative(b, q), WageLimit(b, q)) <= PhasedIn(b, phase, q) <= Tentative(b, q)
    ensures b.income <= 0.0 ==> PhasedIn(b, phase, q) == Tentative(b, q) == 0.0
  {
    PhasedOutBounds(Tentative(b, q) - WageLimit(b, q), phase);
    hide PhasedOut, Tentative, WageLimit;
  }

  lemma PhasedOutBounds(excess: real, phase: real)
    requires 0.0 <= phase <= 1.0
    ensures 0.0 <= excess ==> 0.0 <= PhasedOut(excess, phase) <= excess
  {
    if 0.0 <= excess {
      LessTimesPrice(0.0, phase, excess);
      LessTimesPrice(phase, 1.0, excess);
    }
  }

  lemma PhasedOutGrows(excess: real, p: real, r: real)
    requires p <= r && 0.0 <= excess
    ensures PhasedOut(excess, p) <= PhasedOut(excess, r)
  {
    LessTimesPrice(p, r, excess);
  }

  /** Every step through the range takes the same part of the excess over the wage limit, from all of it to none. */
  lemma PhaseInIsEven(b: Business, p: real, r: real, q: QbiRules)
    requires 0.0 <= p <= 1.0 && 0.0 <= r <= 1.0 && 0.0 < b.income
    ensures PhasedIn(b, p, q) - PhasedIn(b, r, q) == Max(0.0, Tentative(b, q) - WageLimit(b, q)) * (r - p)
  {
    var excess := Max(0.0, Tentative(b, q) - WageLimit(b, q));
    hide Tentative, WageLimit;
    EvenSteps(excess, p, r);
  }

  lemma EvenSteps(excess: real, p: real, r: real)
    ensures PhasedOut(excess, r) - PhasedOut(excess, p) == excess * (r - p)
    ensures PhasedOut(excess, 0.0) == 0.0 && PhasedOut(excess, 1.0) == excess
  {
  }

  lemma PhasedInFalls(b: Business, p: real, r: real, q: QbiRules)
    requires 0.0 <= p <= r <= 1.0
    ensures PhasedIn(b, r, q) <= PhasedIn(b, p, q)
  {
    var excess := Tentative(b, q) - WageLimit(b, q);
    hide PhasedOut, Tentative, WageLimit;
    PhasedOutBounds(excess, p);
    PhasedOutBounds(excess, r);
    if excess > 0.0 {
      PhasedOutGrows(excess, p, r);
    }
  }

  /** Every amount of a business scaled by a share scales its component. */
  lemma PhasedInScales(b: Business, share: real, phase: real, q: QbiRules)
    requires 0.0 < share
    ensures PhasedIn(Applicable(b, share), phase, q) == Part(PhasedIn(b, phase, q), share)
  {
    var tentative, limit := Tentative(b, q), WageLimit(b, q);
    TentativeScales(b, share, q);
    LimitScales(b, share, q);
    hide Tentative, WageLimit, PhasedOut, Part;
    PartSign(b.income, share);
    PartSign(tentative - limit, share);
    PartDifference(tentative, limit, share);
    PartDifference(tentative, PhasedOut(tentative - limit, phase), share);
    PartPhasedOut(tentative - limit, phase, share);
  }

  lemma PartSign(x: real, share: real)
    requires 0.0 < share
    ensures x <= 0.0 <==> Part(x, share) <= 0.0
  {
  }

  lemma PartDifference(x: real, y: real, share: real)
    ensures Part(x, share) - Part(y, share) == Part(x - y, share)
  {
  }

  lemma PartPhasedOut(excess: real, phase: real, share: real)
    ensures PhasedOut(Part(excess, share), phase) == Part(PhasedOut(excess, phase), share)
  {
  }

  lemma TentativeScales(b: Business, share: real, q: QbiRules)
    requires 0.0 < share
    ensures Tentative(Applicable(b, share), q) == Part(Tentative(b, q), share)
  {
    PartSign(b.income, share);
    assert Max(0.0, Part(b.income, share)) == Part(Max(0.0, b.income), share);
    PartOfProduct(q.rate, Max(0.0, b.income), share);
  }

  lemma PartOfProduct(rate: real, amount: real, share: real)
    ensures rate * Part(amount, share) == Part(rate * amount, share)
  {
  }

  lemma LimitScales(b: Business, share: real, q: QbiRules)
    requires 0.0 < share
    ensures WageLimit(Applicable(b, share), q) == Part(WageLimit(b, q), share)
  {
    var x := q.wages * b.wages;
    var y := if b.property.Some? then q.lowWages * b.wages + q.property * b.property.value else 0.0;
    PartOfProduct(q.wages, b.wages, share);
    if b.property.Some? {
      PartOfProduct(q.lowWages, b.wages, share);
      PartOfProduct(q.property, b.property.value, share);
      PartSum(q.lowWages * b.wages, q.property * b.property.value, share);
    }
    MaxScales(x, y, share);
    assert Part(0.0, share) == 0.0;
    hide Part, Max;
  }

  lemma PartSum(x: real, y: real, share: real)
    ensures Part(x, share) + Part(y, share) == Part(x + y, share)
  {
  }

  lemma MaxScales(x: real, y: real, share: real)
    requires 0.0 < share
    ensures Max(Part(x, share), Part(y, share)) == Part(Max(x, y), share)
  {
    PartSign(x - y, share);
    PartDifference(x, y, share);
  }

  /** A service business gets exactly the part not phased out of what the same business would get otherwise. */
  lemma ServiceIsAShare(b: Business, taxableIncome: real, q: QbiRules)
    requires 0.0 < q.range
    ensures Component(b, taxableIncome, true, q)
              == Part(Component(b, taxableIncome, false, q), 1.0 - PhaseIn(taxableIncome, q))
  {
    var phase := PhaseIn(taxableIncome, q);
    assert phase >= 1.0 ==> Part(Component(b, taxableIncome, false, q), 1.0 - phase) == 0.0;
    hide PhaseIn, PhasedIn, Part;
    if phase < 1.0 {
      PhasedInScales(b, 1.0 - phase, phase, q);
    }
  }

  /**
   * More taxable income never raises the component. For a service business this needs amounts that are not negative:
   * what is multiplied by the share that is left must not be below zero.
   */
  lemma MoreIncomeNeverRaisesIt(b: Business, x: real, y: real, service: bool, q: QbiRules)
    requires 0.0 < q.range && x <= y
    requires service ==> 0.0 <= Tentative(b, q) && 0.0 <= WageLimit(b, q)
    ensures Component(b, y, service, q) <= Component(b, x, service, q)
  {
    PhaseInGrows(x, y, q);
    var p, r := PhaseIn(x, q), PhaseIn(y, q);
    PhasedInFalls(b, p, r, q);
    hide *;
    if service {
      ServiceIsAShare(b, x, q);
      ServiceIsAShare(b, y, q);
      NotNegative(b, r, q);
      NotNegative(b, p, q);
      NotService(b, x, q);
      NotService(b, y, q);
      SharesFall(PhasedIn(b, p, q), PhasedIn(b, r, q), 1.0 - p, 1.0 - r);
    } else {
      NotService(b, x, q);
      NotService(b, y, q);
    }
  }

  lemma NotService(b: Business, taxableIncome: real, q: QbiRules)
    requires 0.0 < q.range
    ensures Component(b, taxableIncome, false, q) == PhasedIn(b, PhaseIn(taxableIncome, q), q)
  {
  }

  lemma NotNegative(b: Business, phase: real, q: QbiRules)
    requires 0.0 <= phase <= 1.0 && 0.0 <= Tentative(b, q) && 0.0 <= WageLimit(b, q)
    ensures 0.0 <= PhasedIn(b, phase, q)
  {
    BetweenTheLimits(b, phase, q);
    hide PhasedIn;
  }

  lemma SharesFall(a: real, b: real, s: real, t: real)
    requires 0.0 <= b <= a && 0.0 <= t <= s
    ensures Part(b, t) <= Part(a, s)
  {
    LessTimesPrice(b, a, t);
    LessTimesPrice(t, s, a);
  }
}
