/**
 * The two capital-gain worksheets of the tax oracle: the Qualified Dividends and Capital Gain Tax Worksheet and
 * the Schedule D Tax Worksheet.
 */
module CapitalGains {
  import opened Wrappers
  import opened Amounts
  import opened BracketTax

  /** The three preferential rates and the two breakpoints between them. */
  datatype Preference = Preference(zeroEnd: real, fifteenEnd: real, low: real, middle: real, high: real) {
    predicate Valid() {
      0.0 <= zeroEnd <= fifteenEnd && 0.0 <= low <= middle <= high
    }

    /** The preferential rates as a schedule over total taxable income. */
    function Schedule(): seq<Step> {
      [Step(0.0, low), Step(zeroEnd, middle), Step(fifteenEnd, high)]
    }
  }

  datatype Portions = Portions(ordinary: real, atZero: real, atFifteen: real, atTwenty: real)

  /** How the worksheet splits `ti`, of which `pref` is preferential. */
  function Split(ti: real, pref: real, p: Preference): Portions {
    var ti' := Max(0.0, ti);
    var pref' := Max(0.0, Min(pref, ti'));
    var ordinary := ti' - pref';
    var atZero := Max(0.0, Min(pref', p.zeroEnd - ordinary));
    var atFifteen := Max(0.0, Min(pref' - atZero, p.fifteenEnd - Max(ordinary, p.zeroEnd)));
    Portions(ordinary, atZero, atFifteen, pref' - atZero - atFifteen)
  }

  function WorksheetAmount(ti: real, pref: real, s: seq<Step>, p: Preference): real {
    var split := Split(ti, pref, p);
    Tax(s, split.ordinary) + At(split.atZero, p.low) + At(split.atFifteen, p.middle) + At(split.atTwenty, p.high)
  }

  /** The tax of the worksheet, never more than the tax on `ti` at ordinary rates. */
  function QdLtcgTax(ti: real, pref: real, s: seq<Step>, p: Preference): real {
    Min(WorksheetAmount(ti, pref, s, p), Tax(s, Max(0.0, ti)))
  }

  // ---------- The worksheet is a stacked schedule ----------

  /** The income between `x` and `y` that falls in each preferential band. */
  lemma PortionsAreBands(ti: real, pref: real, p: Preference)
    requires p.Valid()
    ensures var split := Split(ti, pref, p);
            var o, t := split.ordinary, Max(0.0, ti);
            && 0.0 <= o <= t && 0.0 <= split.atZero && 0.0 <= split.atFifteen && 0.0 <= split.atTwenty
            && o + split.atZero + split.atFifteen + split.atTwenty == t
            && split.atZero == Slice(t, 0.0, Some(p.zeroEnd)) - Slice(o, 0.0, Some(p.zeroEnd))
            && split.atFifteen == Slice(t, p.zeroEnd, Some(p.fifteenEnd)) - Slice(o, p.zeroEnd, Some(p.fifteenEnd))
            && split.atTwenty == Slice(t, p.fifteenEnd, None) - Slice(o, p.fifteenEnd, None)
  {
    var t, o := Max(0.0, ti), Split(ti, pref, p).ordinary;
    assert 0.0 <= o <= t;
    Band(o, t, 0.0, p.zeroEnd);
    Band(o, t, p.zeroEnd, p.fifteenEnd);
  }

  /** What is between `o` and `t` and within a band. */
  lemma Band(o: real, t: real, from: real, to: real)
    requires 0.0 <= o <= t && from <= to
    ensures Between(t, from, to) - Between(o, from, to) == Max(0.0, Min(t, to) - Max(o, from))
    ensures Above(t, to) - Above(o, to) == Max(0.0, t - Max(o, to))
  {
  }

  lemma ScheduleTax(x: real, p: Preference)
    ensures Tax(p.Schedule(), x)
              == At(Slice(x, 0.0, Some(p.zeroEnd)), p.low) + At(Slice(x, p.zeroEnd, Some(p.fifteenEnd)), p.middle)
                                    + At(Slice(x, p.fifteenEnd, None), p.high)
  {
    hide At, Slice;
    var s := p.Schedule();
    var s1 := [Step(p.zeroEnd, p.middle), Step(p.fifteenEnd, p.high)];
    var s2 := [Step(p.fifteenEnd, p.high)];
    assert s[1..] == s1 && s1[1..] == s2 && s2[1..] == [];
    assert Tax([], x) == 0.0 && Tax(s2, x) == At(Slice(x, p.fifteenEnd, None), p.high);
    assert Tax(s1, x) == At(Slice(x, p.zeroEnd, Some(p.fifteenEnd)), p.middle) + Tax(s2, x);
    assert Tax(s, x) == At(Slice(x, 0.0, Some(p.zeroEnd)), p.low) + Tax(s1, x);
  }

  /**
   * Ordinary income fills the brackets first, and the preferential income is taxed by its own schedule on top of it.
   */
  lemma WorksheetStacks(ti: real, pref: real, s: seq<Step>, p: Preference)
    requires p.Valid()
    ensures var o := Split(ti, pref, p).ordinary;
            WorksheetAmount(ti, pref, s, p) == Tax(s, o) + Tax(p.Schedule(), Max(0.0, ti)) - Tax(p.Schedule(), o)
  {
    var split := Split(ti, pref, p);
    var o, t := split.ordinary, Max(0.0, ti);
    PortionsAreBands(ti, pref, p);
    ScheduleTax(t, p);
    ScheduleTax(o, p);
    hide At, Slice, Tax, Split, Max, Min;
    AtDifferences(Slice(t, 0.0, Some(p.zeroEnd)), Slice(o, 0.0, Some(p.zeroEnd)), p.low, 0.0);
    AtDifferences(Slice(t, p.zeroEnd, Some(p.fifteenEnd)), Slice(o, p.zeroEnd, Some(p.fifteenEnd)), p.middle, 0.0);
    AtDifferences(Slice(t, p.fifteenEnd, None), Slice(o, p.fifteenEnd, None), p.high, 0.0);
  }

  lemma PreferenceIsProgressive(p: Preference)
    requires p.Valid()
    ensures Ordered(p.Schedule()) && Progressive(p.Schedule())
  {
  }

  /** For fixed preferential income, more taxable income never lowers the worksheet amount or the tax. */
  lemma TaxGrowsWithIncome(x: real, y: real, pref: real, s: seq<Step>, p: Preference)
    requires p.Valid() && Ordered(s) && Progressive(s) && x <= y
    ensures WorksheetAmount(x, pref, s, p) <= WorksheetAmount(y, pref, s, p)
    ensures QdLtcgTax(x, pref, s, p) <= QdLtcgTax(y, pref, s, p)
  {
    hide Tax, Ordered;
    WorksheetStacks(x, pref, s, p);
    WorksheetStacks(y, pref, s, p);
    PreferenceIsProgressive(p);
    var r := p.Schedule();
    var tx, ty, ox, oy := Max(0.0, x), Max(0.0, y), Split(x, pref, p).ordinary, Split(y, pref, p).ordinary;
    // The split adds the same preferential amount, or fills it up from no ordinary income at all.
    assert 0.0 <= ox <= oy && tx - ox <= ty - oy && (tx - ox < ty - oy ==> ox == 0.0);
    TaxMonotone(s, ox, oy);
    TaxMonotone(s, tx, ty);
    TaxMonotone(r, ox + (tx - ox), ox + (ty - oy));
    TaxConvex(r, ox, oy, ty - oy);
  }

  /** No preferential income: the worksheet is the ordinary tax. */
  lemma WithoutPreference(ti: real, pref: real, s: seq<Step>, p: Preference)
    requires p.Valid() && pref <= 0.0
    ensures QdLtcgTax(ti, pref, s, p) == Tax(s, Max(0.0, ti))
  {
    WorksheetStacks(ti, pref, s, p);
  }

  // ---------- The Schedule D Tax Worksheet ----------

  /** The worksheet's inputs: taxable income, qualified dividends, lines 15, 16, 18 and 19 of Schedule D. */
  datatype ScheduleD = ScheduleD(ti: real, qd: real, d15: real, d16: real, collectibles: real, unrecaptured: real) {
    predicate NonNegative() {
      0.0 <= ti && 0.0 <= qd && 0.0 <= d15 && 0.0 <= d16 && 0.0 <= collectibles && 0.0 <= unrecaptured
    }

    /** The net gain the special rates apply to. */
    function Net(): real {
      Min(d15, d16)
    }
  }

  /** The worksheet's thresholds: lines 15, 19 and 26. */
  datatype Thresholds = Thresholds(line15: real, line19: real, line26: real) {
    /** The worksheet's preferential rates and their breakpoints. */
    function Rates(): Preference {
      Preference(line15, line26, 0.0, 0.15, 0.20)
    }
  }

  /** The thresholds of 2025 for a joint return. */
  const JOINT_2025 := Thresholds(96700.0, 394600.0, 600050.0)

  datatype Buckets = Buckets(ordinary: real, atZero: real, atFifteen: real, atTwenty: real, atTwentyFive: real,
        atTwentyEight: real)

  /** Lines 1 to 42, by line number. */
  function BucketsOf(d: ScheduleD, w: Thresholds): Buckets {
    var l1 := d.ti; var l6 := d.qd;
    var l9 := Min(d.d15, d.d16); var l10 := l6 + l9;
    var l11 := d.collectibles + d.unrecaptured;
    var l12 := Min(l9, l11); var l13 := l10 - l12; var l14 := Max(0.0, l1 - l13);
    var l16 := Min(l1, w.line15); var l17 := Min(l14, l16); var l18 := Max(0.0, l1 - l10);
    var l19 := Min(l1, w.line19); var l20 := Min(l14, l19); var l21 := Max(l18, l20);
    var l22 := l16 - l17;
    var l23 := Min(l1, l13); var l24 := l22; var l25 := Max(0.0, l23 - l24);
    var l27 := Min(l1, w.line26); var l28 := l21 + l22; var l29 := Max(0.0, l27 - l28); var l30 := Min(l25, l29);
    var l32 := l24 + l30; var l33 := l23 - l32;
    var l35 := Min(l9, d.unrecaptured); var l36 := l10 + l21; var l38 := Max(0.0, l36 - l1);
      var l39 := Max(0.0, l35 - l38);
    var l41 := l21 + l22 + l30 + l33 + l39; var l42 := l1 - l41;
    Buckets(l21, l22, l30, l33, l39, l42)
  }

  /** Line 45: the tax on the six buckets. */
  function ScheduleDAmount(d: ScheduleD, w: Thresholds, s: seq<Step>): real {
    var b := BucketsOf(d, w);
    At(b.atFifteen, 0.15) + At(b.atTwenty, 0.20) + At(b.atTwentyFive, 0.25) + At(b.atTwentyEight, 0.28)
    + Tax(s, b.ordinary)
  }

  /** Line 47. */
  function ScheduleDTax(d: ScheduleD, w: Thresholds, s: seq<Step>): real {
    Min(ScheduleDAmount(d, w, s), Tax(s, d.ti))
  }

  /** The six buckets split taxable income: none is negative and together they are all of it. */
  lemma BucketsPartition(d: ScheduleD, w: Thresholds)
    requires d.NonNegative() && 0.0 <= w.line15 && 0.0 <= w.line19
    ensures var b := BucketsOf(d, w);
            && 0.0 <= b.ordinary && 0.0 <= b.atZero && 0.0 <= b.atFifteen && 0.0 <= b.atTwenty
            && 0.0 <= b.atTwentyFive && 0.0 <= b.atTwentyEight
            && b.ordinary + b.atZero + b.atFifteen + b.atTwenty + b.atTwentyFive + b.atTwentyEight == d.ti
  {
  }

  /**
   * Of the net gain, the part of the two special kinds leaves the preferential buckets. It fills the ordinary brackets
   * up to line 19; what is then left is taxed at 25% as far as there is unrecaptured gain, and at 28% beyond.
   */
  lemma SpecialGains(d: ScheduleD, w: Thresholds)
    requires d.NonNegative() && 0.0 <= w.line15 && 0.0 <= w.line19
    ensures var b := BucketsOf(d, w);
            var pref, special := d.qd + d.Net(), Min(d.Net(), d.collectibles + d.unrecaptured);
            && b.atZero + b.atFifteen + b.atTwenty == Min(d.ti, pref - special)
            && b.ordinary == Max(Max(0.0, d.ti - pref), Min(Max(0.0, d.ti - (pref - special)), w.line19))
            && b.atTwentyFive == Max(0.0, Min(d.Net(), d.unrecaptured) - (b.ordinary + pref - d.ti))
            && (b.ordinary + pref == d.ti ==> && b.atTwentyFive == Min(d.Net(), d.unrecaptured)
                                              && b.atTwentyEight == special - b.atTwentyFive)
  {
  }

  /** The gains taxed at 25% and 28% come out of the gains of those kinds, and only out of the net gain. */
  lemma SpecialRatesBounded(d: ScheduleD, w: Thresholds)
    requires d.NonNegative() && 0.0 <= w.line15 && 0.0 <= w.line19
    ensures var b := BucketsOf(d, w);
            && b.atTwentyFive <= d.unrecaptured && b.atTwentyEight <= d.collectibles
            && b.atTwentyFive + b.atTwentyEight <= Min(d.Net(), d.collectibles + d.unrecaptured)
  {
  }

  /** The dividends and the gain of neither special kind. */
  function PlainGain(d: ScheduleD): real {
    d.qd + d.Net() - Min(d.Net(), d.collectibles + d.unrecaptured)
  }

  /** The income that the special rates leave. */
  function Rest(d: ScheduleD, w: Thresholds): real {
    d.ti - BucketsOf(d, w).atTwentyFive - BucketsOf(d, w).atTwentyEight
  }

  lemma RestIsSplit(d: ScheduleD, w: Thresholds)
    requires d.NonNegative() && 0.0 <= w.line15 <= w.line19 && w.line15 <= w.line26
    ensures var b := BucketsOf(d, w);
            Split(Rest(d, w), PlainGain(d), w.Rates()) == Portions(b.ordinary, b.atZero, b.atFifteen, b.atTwenty)
  {
  }

  /**
   * The 47 lines are the short worksheet on the income and gain that the special rates leave, plus 25% of the one kind
   * and 28% of the other.
   */
  lemma ScheduleDStacks(d: ScheduleD, w: Thresholds, s: seq<Step>)
    requires d.NonNegative() && 0.0 <= w.line15 <= w.line19 && w.line15 <= w.line26
    ensures var b := BucketsOf(d, w);
            && Split(Rest(d, w), PlainGain(d), w.Rates()) == Portions(b.ordinary, b.atZero, b.atFifteen, b.atTwenty)
            && ScheduleDAmount(d, w, s) == WorksheetAmount(Rest(d, w), PlainGain(d), s, w.Rates())
                                             + At(b.atTwentyFive, 0.25) + At(b.atTwentyEight, 0.28)
  {
    hide Tax, BucketsOf, Split, Rest, PlainGain, At;
    RestIsSplit(d, w);
    AtNothing(BucketsOf(d, w).atZero);
  }

  lemma AtNothing(x: real)
    ensures At(x, 0.0) == 0.0 && At(0.0, x) == 0.0
  {
  }

  /** The higher-income scenario of the reference calculation: both kinds of gain in full at their own rates. */
  lemma BothKindsInFull()
    ensures BucketsOf(ScheduleD(768500.0, 0.0, 200000.0, 200000.0, 30000.0, 60000.0), JOINT_2025)
         == Buckets(568500.0, 0.0, 31550.0, 78450.0, 60000.0, 30000.0)
  {
  }

  /** Without collectibles and unrecaptured gain the 47 lines are the short worksheet, bucket by bucket and in tax. */
  lemma ScheduleDIsTheShortWorksheet(d: ScheduleD, w: Thresholds, s: seq<Step>)
    requires d.NonNegative() && d.collectibles == 0.0 && d.unrecaptured == 0.0
    requires 0.0 <= w.line15 <= w.line19 && w.line15 <= w.line26
    ensures var b, pref := BucketsOf(d, w), d.qd + d.Net();
            var split := Split(d.ti, pref, w.Rates());
            && b == Buckets(split.ordinary, split.atZero, split.atFifteen, split.atTwenty, 0.0, 0.0)
            && ScheduleDTax(d, w, s) == QdLtcgTax(d.ti, pref, s, w.Rates())
  {
    hide Tax, BucketsOf, Split, WorksheetAmount, ScheduleDAmount, At;
    SpecialRatesBounded(d, w);
    BucketsPartition(d, w);
    assert Rest(d, w) == d.ti && PlainGain(d) == d.qd + d.Net();
    ScheduleDStacks(d, w, s);
    AtNothing(0.25);
    AtNothing(0.28);
  }

  // ---------- More gain of the special kinds ----------

  /** What income up to `x` costs more at ordinary than at preferential rates. */
  function Premium(x: real, s: seq<Step>, w: Thresholds): real {
    Tax(s, x) - Tax(w.Rates().Schedule(), x)
  }

  /** Up to line 19 the premium never dips: nowhere is it below both what it was before and what it is later. */
  ghost predicate NeverDips(s: seq<Step>, w: Thresholds) {
    forall x, y, z :: 0.0 <= x <= y <= z && y <= w.line19 ==>
      Min(Premium(x, s, w), Premium(z, s, w)) <= Premium(y, s, w)
  }

  /**
   * `e` is `d` with more gain of the special kinds, and no more unrecaptured gain than the net gain leaves room for.
   */
  ghost predicate MoreSpecial(d: ScheduleD, e: ScheduleD) {
    && d.NonNegative() && e == d.(collectibles := e.collectibles, unrecaptured := e.unrecaptured)
    && d.collectibles <= e.collectibles && d.unrecaptured <= e.unrecaptured
    && (e.collectibles + e.unrecaptured <= d.Net() || e.unrecaptured == d.unrecaptured)
  }

  /** The tax in terms of the premium on the ordinary bucket. */
  lemma TaxByPremium(d: ScheduleD, w: Thresholds, s: seq<Step>)
    requires d.NonNegative() && 0.0 <= w.line15 <= w.line19 && w.line15 <= w.line26
    ensures var b, r := BucketsOf(d, w), w.Rates().Schedule();
            && ScheduleDAmount(d, w, s) == Premium(b.ordinary, s, w) + Tax(r, Rest(d, w))
                                             + At(b.atTwentyFive, 0.25) + At(b.atTwentyEight, 0.28)
            && Tax(s, d.ti) == Premium(d.ti, s, w) + Tax(r, d.ti)
            && 0.0 <= Rest(d, w)
  {
    hide BucketsOf, Tax, Split, WorksheetAmount, ScheduleDAmount, At, Preference.Schedule;
    ScheduleDStacks(d, w, s);
    BucketsPartition(d, w);
    WorksheetStacks(Rest(d, w), PlainGain(d), s, w.Rates());
  }

  /** Preferential rates are at most 20%. */
  lemma TopRate(x: real, y: real, w: Thresholds)
    requires 0.0 <= x <= y && 0.0 <= w.line15 <= w.line26
    ensures Tax(w.Rates().Schedule(), y) - Tax(w.Rates().Schedule(), x) <= 0.20 * (y - x)
  {
    hide Tax, Preference.Schedule;
    ScheduleTax(x, w.Rates());
    ScheduleTax(y, w.Rates());
  }

  /** What of the special gain is taxed at its own rates. */
  lemma SpecialTotal(d: ScheduleD, w: Thresholds)
    requires d.NonNegative() && 0.0 <= w.line15 && 0.0 <= w.line19
    ensures var b, above := BucketsOf(d, w), Max(0.0, d.ti - PlainGain(d));
            && b.ordinary == Max(Max(0.0, d.ti - d.qd - d.Net()), Min(above, w.line19))
            && b.atTwentyFive + b.atTwentyEight == above - b.ordinary
            && b.atTwentyFive == Max(0.0, Min(d.Net(), d.unrecaptured) - (b.ordinary + d.qd + d.Net() - d.ti))
            && 0.0 <= b.ordinary && 0.0 <= b.atTwentyEight
  {
    hide BucketsOf;
    SpecialGains(d, w);
    BucketsPartition(d, w);
  }

  /** More special gain goes to ordinary rates first, and to its own rates once line 19 is reached. */
  lemma SpecialGrows(d: ScheduleD, e: ScheduleD, w: Thresholds)
    requires MoreSpecial(d, e) && 0.0 <= w.line15 && 0.0 <= w.line19
    ensures var b, c := BucketsOf(d, w), BucketsOf(e, w);
            if b.ordinary == c.ordinary then
              var more := c.atTwentyFive + c.atTwentyEight - b.atTwentyFive - b.atTwentyEight;
              0.0 <= more && c.atTwentyFive - b.atTwentyFive <= more
            else
              b.ordinary < c.ordinary <= w.line19 && b.atTwentyFive == b.atTwentyEight == 0.0
  {
    hide BucketsOf;
    SpecialTotal(d, w);
    SpecialTotal(e, w);
  }

  /** Where the premium never dips, more special gain never lowers the tax. */
  lemma MoreSpecialGain(d: ScheduleD, e: ScheduleD, w: Thresholds, s: seq<Step>)
    requires 0.0 <= w.line15 <= w.line19 && w.line15 <= w.line26 && NeverDips(s, w) && MoreSpecial(d, e)
    ensures ScheduleDTax(d, w, s) <= ScheduleDTax(e, w, s)
  {
    hide Tax, BucketsOf, Premium, ScheduleDAmount, Preference.Schedule, At, Thresholds.Rates;
    var b, c := BucketsOf(d, w), BucketsOf(e, w);
    SpecialGrows(d, e, w);
    BucketsPartition(d, w);
    BucketsPartition(e, w);
    TaxByPremium(d, w, s);
    TaxByPremium(e, w, s);
    SpecialRates(b.atTwentyFive, b.atTwentyEight);
    SpecialRates(c.atTwentyFive, c.atTwentyEight);
    TopRate(Rest(e, w), Rest(d, w), w);
    TopRate(Rest(e, w), d.ti, w);
    assert Min(Premium(b.ordinary, s, w), Premium(d.ti, s, w)) <= Premium(c.ordinary, s, w);
  }

  lemma SpecialRates(x: real, y: real)
    ensures At(x, 0.25) == 0.25 * x && At(y, 0.28) == 0.28 * y
  {
  }

  /** The tax never falls as the special gain grows within the net gain exactly where the premium never dips. */
  lemma MoreSpecialGainIsExact(w: Thresholds, s: seq<Step>)
    requires 0.0 <= w.line15 <= w.line19 && w.line15 <= w.line26
    ensures NeverDips(s, w) <==> forall d, e :: MoreSpecial(d, e) ==> ScheduleDTax(d, w, s) <= ScheduleDTax(e, w, s)
  {
    hide ScheduleDTax, Premium, MoreSpecial;
    if NeverDips(s, w) {
      forall d, e | MoreSpecial(d, e) ensures ScheduleDTax(d, w, s) <= ScheduleDTax(e, w, s) {
        MoreSpecialGain(d, e, w, s);
      }
    } else {
      var x, y, z :| 0.0 <= x <= y <= z && y <= w.line19 && Premium(y, s, w) < Min(Premium(x, s, w), Premium(z, s, w));
      DipLowersTheTax(x, y, z, w, s);
    }
  }

  /** A gain on top of `x`, with collectibles that line 19 leaves at ordinary rates. */
  lemma CollectiblesOnly(z: real, x: real, c: real, w: Thresholds, s: seq<Step>)
    requires 0.0 <= w.line15 <= w.line19 && w.line15 <= w.line26
    requires 0.0 <= x <= z && 0.0 <= c && x + c <= z && x + c <= w.line19
    ensures ScheduleDTax(ScheduleD(z, 0.0, z - x, z - x, c, 0.0), w, s)
         == Min(Premium(x + c, s, w), Premium(z, s, w)) + Tax(w.Rates().Schedule(), z)
  {
    hide Tax, BucketsOf, Premium, ScheduleDAmount, Preference.Schedule, At, Thresholds.Rates;
    var d := ScheduleD(z, 0.0, z - x, z - x, c, 0.0);
    SpecialTotal(d, w);
    TaxByPremium(d, w, s);
    SpecialRates(0.0, 0.0);
  }

  lemma DipLowersTheTax(x: real, y: real, z: real, w: Thresholds, s: seq<Step>)
    requires 0.0 <= w.line15 <= w.line19 && w.line15 <= w.line26 && 0.0 <= x <= y <= z && y <= w.line19
    requires Premium(y, s, w) < Min(Premium(x, s, w), Premium(z, s, w))
    ensures var d := ScheduleD(z, 0.0, z - x, z - x, 0.0, 0.0);
            var e := d.(collectibles := y - x);
            MoreSpecial(d, e) && ScheduleDTax(e, w, s) < ScheduleDTax(d, w, s)
  {
    hide Tax, Premium, ScheduleDTax, Preference.Schedule, Thresholds.Rates;
    CollectiblesOnly(z, x, 0.0, w, s);
    CollectiblesOnly(z, x, y - x, w, s);
  }

  /**
   * Once the two kinds make up the whole net gain, more unrecaptured gain only takes from the 28% bucket: line 45 falls
   * by 3% of what moves.
   */
  lemma BeyondTheNetGain(d: ScheduleD, u: real, w: Thresholds, s: seq<Step>)
    requires d.NonNegative() && 0.0 <= w.line15 && 0.0 <= w.line19
    requires d.Net() <= d.collectibles + d.unrecaptured && d.unrecaptured <= u
    ensures var e := d.(unrecaptured := u);
            var b := BucketsOf(d, w);
            var moved := BucketsOf(e, w).atTwentyFive - b.atTwentyFive;
            && 0.0 <= moved
            && BucketsOf(e, w) == b.(atTwentyFive := b.atTwentyFive + moved, atTwentyEight := b.atTwentyEight - moved)
            && ScheduleDAmount(e, w, s) == ScheduleDAmount(d, w, s) - 0.03 * moved
            && (ScheduleDTax(e, w, s) < ScheduleDTax(d, w, s)
                <==> 0.0 < moved && ScheduleDAmount(d, w, s) - 0.03 * moved < Tax(s, d.ti))
  {
    hide Tax, BucketsOf, At;
    var b, c := BucketsOf(d, w), BucketsOf(d.(unrecaptured := u), w);
    MovesBetweenTheKinds(d, u, w);
    SpecialRates(b.atTwentyFive, b.atTwentyEight);
    SpecialRates(c.atTwentyFive, c.atTwentyEight);
  }

  lemma MovesBetweenTheKinds(d: ScheduleD, u: real, w: Thresholds)
    requires d.NonNegative() && 0.0 <= w.line15 && 0.0 <= w.line19
    requires d.Net() <= d.collectibles + d.unrecaptured && d.unrecaptured <= u
    ensures var b, c := BucketsOf(d, w), BucketsOf(d.(unrecaptured := u), w);
            var moved := c.atTwentyFive - b.atTwentyFive;
            0.0 <= moved && c == b.(atTwentyFive := b.atTwentyFive + moved, atTwentyEight := b.atTwentyEight - moved)
  {
  }

  /** The joint brackets of 2025. */
  const JOINT_BRACKETS := [Step(0.0, 0.10), Step(23850.0, 0.12), Step(96950.0, 0.22), Step(206700.0, 0.24),
                           Step(394600.0, 0.32), Step(501050.0, 0.35), Step(751600.0, 0.37)]

  lemma JointTax(s: seq<Step>, x: real)
    requires s == JOINT_BRACKETS && 23850.0 <= x <= 206700.0
    ensures Tax(s, x) == 2385.0 + 0.12 * (Min(x, 96950.0) - 23850.0) + 0.22 * Max(0.0, x - 96950.0)
  {
    assert s[1..][1..] == s[2..] && s[2..][1..] == s[3..];
    NothingBelow(s[3..], x);
    assert Tax(s[2..], x) == 0.22 * Max(0.0, x - 96950.0);
    assert Tax(s[1..], x) == 0.12 * (Min(x, 96950.0) - 23850.0) + Tax(s[2..], x);
  }

  /** A gain of $103,300 in $200,000 of income, the first `c` dollars of it from collectibles. */
  lemma GainAtTheBandEnd(c: real, w: Thresholds, s: seq<Step>)
    requires w == JOINT_2025 && s == JOINT_BRACKETS && 0.0 <= c <= 250.0
    ensures ScheduleDTax(ScheduleD(200000.0, 0.0, 103300.0, 103300.0, c, 0.0), w, s)
         == 11127.0 + 0.12 * c + 0.15 * (103300.0 - c)
  {
    hide Tax, BucketsOf, At;
    var d := ScheduleD(200000.0, 0.0, 103300.0, 103300.0, c, 0.0);
    var b := BucketsOf(d, w);
    BucketsAtTheBandEnd(c, w);
    JointTax(s, b.ordinary);
    JointTax(s, d.ti);
    AtNothing(0.20);
    SpecialRates(0.0, 0.0);
    assert At(b.atFifteen, 0.15) == 0.15 * b.atFifteen by { Fifteen(b.atFifteen); }
  }

  lemma Fifteen(x: real)
    ensures At(x, 0.15) == 0.15 * x
  {
  }

  lemma BucketsAtTheBandEnd(c: real, w: Thresholds)
    requires w == JOINT_2025 && 0.0 <= c <= 250.0
    ensures BucketsOf(ScheduleD(200000.0, 0.0, 103300.0, 103300.0, c, 0.0), w)
         == Buckets(96700.0 + c, 0.0, 103300.0 - c, 0.0, 0.0, 0.0)
  {
  }

  /**
   * In the 2025 table the premium dips: the 12% bracket ends $250 above the 0% band of gains. Of a gain that begins at
   * the end of that band the first $250 that is collectibles gain lowers the tax by $7.50.
   */
  lemma JointTableDips(w: Thresholds, s: seq<Step>)
    requires w == JOINT_2025 && s == JOINT_BRACKETS
    ensures var d := ScheduleD(200000.0, 0.0, 103300.0, 103300.0, 0.0, 0.0);
            var e := d.(collectibles := 250.0);
            MoreSpecial(d, e) && ScheduleDTax(e, w, s) == ScheduleDTax(d, w, s) - 7.5
    ensures !NeverDips(s, w)
  {
    hide ScheduleDTax, NeverDips;
    var d := ScheduleD(200000.0, 0.0, 103300.0, 103300.0, 0.0, 0.0);
    var e := d.(collectibles := 250.0);
    GainAtTheBandEnd(0.0, w, s);
    GainAtTheBandEnd(250.0, w, s);
    if NeverDips(s, w) {
      MoreSpecialGain(d, e, w, s);
    }
  }
}
