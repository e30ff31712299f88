/**
 * The section 6654 rate table and the accrual legs of Form 2210 Part III Section B.
 *
 * The day d -> d+1 carries the rate and the year length in force on d+1.
 */
module UnderpaymentInterest {
  import opened Wrappers
  import opened Calendar

  /** Rate `rate` in force from day `from` to day `to`, both included. */
  datatype Period = Period(from: Date, to: Date, rate: real)

  type RateTable = seq<Period>

  /** The first period of the table that holds day `d`; the source raises when there is none. */
  function RateOn(rates: RateTable, d: Date): Option<real> {
    if rates == [] then None
    else if rates[0].from <= d <= rates[0].to then Some(rates[0].rate)
    else RateOn(rates[1..], d)
  }

  // ---------- The day-by-day meaning of interest ----------

  /** Interest on one unpaid dollar over the day `d` -> `d+1` (nothing when the day has no rate). */
  function DayPrice(rates: RateTable, d: Date): real {
    match RateOn(rates, d + 1)
    case None => 0.0
    case Some(rate) => rate / DaysInYear(YearOf(d + 1)) as real
  }

  /** Interest on one unpaid dollar from day `s` to day `e`. */
  function Interest(rates: RateTable, s: Date, e: Date): real
    decreases e - s
  {
    if e <= s then 0.0 else Interest(rates, s, e - 1) + DayPrice(rates, e - 1)
  }

  /** Every day of (s, e] has a rate. */
  predicate RatedThrough(rates: RateTable, s: Date, e: Date) {
    forall d: Date :: s < d <= e ==> RateOn(rates, d).Some?
  }

  lemma {:induction false} InterestAdditive(rates: RateTable, s: Date, m: Date, e: Date)
    requires s <= m <= e
    ensures Interest(rates, s, e) == Interest(rates, s, m) + Interest(rates, m, e)
    decreases e - m
  {
    if m < e {
      InterestAdditive(rates, s, m, e - 1);
    }
  }

  // ---------- The legs ----------

  datatype Leg = Leg(from: Date, to: Date, days: int, rate: real, daysInYear: int) {
    predicate Proper() {
      from < to && days == to - from && 0 < daysInYear
    }

    /** Interest of the leg on one dollar. */
    function Factor(): real
      requires Proper()
    {
      rate * days as real / daysInYear as real
    }

    /** Every day of the leg has the leg's rate and year length. */
    ghost predicate Uniform(rates: RateTable) {
      forall d: Date :: from < d <= to ==> RateOn(rates, d) == Some(rate) && DaysInYear(YearOf(d)) == daysInYear
    }
  }

  function PeriodEnds(rates: RateTable): set<Date> {
    set p | p in rates :: p.to
  }

  function YearEnds(s: Date, e: Date): set<Date> {
    set y: nat | YearOf(s) <= y <= YearOf(e) && 1 <= Dec31(y) :: Dec31(y)
  }

  /** The days strictly inside (s, e) at which a leg is cut. */
  function CutDays(rates: RateTable, s: Date, e: Date): (cuts: set<Date>)
    ensures forall b :: b in cuts ==> s < b < e
  {
    set b | b in PeriodEnds(rates) + YearEnds(s, e) && s < b < e
  }

  predicate AtMostAll(m: Date, days: set<Date>) {
    forall b :: b in days ==> m <= b
  }

  lemma Least(days: set<Date>) returns (m: Date)
    requires days != {}
    ensures m in days && AtMostAll(m, days)
  {
    var x :| x in days;
    var rest := days - {x};
    m := x;
    if rest != {} {
      var n := Least(rest);
      m := if n < x then n else x;
    }
    forall b | b in days ensures m <= b {
      assert b == x || b in rest;
    }
  }

  lemma LeastExists(days: set<Date>)
    requires days != {}
    ensures exists m :: m in days && AtMostAll(m, days)
  {
    var m := Least(days);
  }

  /** The elements of a set of days in ascending order. */
  function Ascending(days: set<Date>): (r: seq<Date>)
    ensures forall i, j :: 0 <= i < j < |r| ==> r[i] < r[j]
    ensures forall b :: b in r <==> b in days
  {
    if days == {} then []
    else
      LeastExists(days);
      var m :| m in days && AtMostAll(m, days);
      [m] + Ascending(days - {m})
  }

  /** A day after which a leg started before it ends: a period end or December 31. */
  predicate IsCut(rates: RateTable, d: Date) {
    d in PeriodEnds(rates) || d == Dec31(YearOf(d))
  }

  lemma CutDaysAreTheCuts(rates: RateTable, s: Date, e: Date, d: Date)
    requires s < d < e
    ensures d in CutDays(rates, s, e) <==> IsCut(rates, d)
  {
    YearsOrdered(s, d);
    YearsOrdered(d, e);
    if d in YearEnds(s, e) {
      var y: nat :| YearOf(s) <= y <= YearOf(e) && d == Dec31(y);
      YearLength(y);
      YearOfUnique(d, y);
    }
    if d == Dec31(YearOf(d)) {
      assert YearOf(s) <= YearOf(d) <= YearOf(e);
    }
  }

  lemma YearsOrdered(a: Date, b: Date)
    requires a <= b
    ensures YearOf(a) <= YearOf(b)
  {
    Dec31NonDecreasing(YearOf(b), YearOf(a) - 1);
  }

  /**
   * The table changes its rate only after a cut, as long as there is a rate to change: the day after a rated
   * day that is neither a period end nor a December 31 carries the same rate.
   */
  ghost predicate StepsAtCuts(rates: RateTable) {
    forall d: Date {:trigger IsCut(rates, d)} ::
      1 < d && RateOn(rates, d).Some? && !IsCut(rates, d) ==> RateOn(rates, d + 1) == RateOn(rates, d)
  }

  /** A check on the table alone: no day lies in two periods. */
  predicate DisjointPeriods(rates: RateTable) {
    forall i, j :: 0 <= i < j < |rates| ==> rates[i].to < rates[j].from || rates[j].to < rates[i].from
  }

  lemma {:induction false} RateOnFinds(rates: RateTable, d: Date)
    ensures RateOn(rates, d).Some? <==> exists i :: 0 <= i < |rates| && rates[i].from <= d <= rates[i].to
    ensures RateOn(rates, d).Some? ==>
              exists i :: 0 <= i < |rates| && rates[i].from <= d <= rates[i].to
                && RateOn(rates, d) == Some(rates[i].rate)
  {
    if rates != [] && !(rates[0].from <= d <= rates[0].to) {
      RateOnFinds(rates[1..], d);
      if RateOn(rates[1..], d).Some? {
        var i :| 0 <= i < |rates[1..]| && rates[1..][i].from <= d <= rates[1..][i].to
          && RateOn(rates[1..], d) == Some(rates[1..][i].rate);
        assert rates[i + 1].from <= d <= rates[i + 1].to;
      }
      if i :| 0 <= i < |rates| && rates[i].from <= d <= rates[i].to {
        assert rates[1..][i - 1] == rates[i];
      }
    }
  }

  /** Legs agree with days on every table whose periods are disjoint, with or without gaps, in any order. */
  lemma DisjointTablesStepAtCuts(rates: RateTable)
    requires DisjointPeriods(rates)
    ensures StepsAtCuts(rates)
  {
    forall d: Date {:trigger IsCut(rates, d)} | 1 < d && RateOn(rates, d).Some? && !IsCut(rates, d)
      ensures RateOn(rates, d + 1) == RateOn(rates, d)
    {
      hide RateOn, Dec31, YearOf, DisjointPeriods;
      SamePeriodNextDay(rates, d);
    }
  }

  lemma SamePeriodNextDay(rates: RateTable, d: Date)
    requires DisjointPeriods(rates) && RateOn(rates, d).Some? && d !in PeriodEnds(rates)
    ensures RateOn(rates, d + 1) == RateOn(rates, d)
  {
    hide RateOn;
    RateOnFinds(rates, d);
    var i :| 0 <= i < |rates| && rates[i].from <= d <= rates[i].to && RateOn(rates, d) == Some(rates[i].rate);
    assert rates[i] in rates;
    assert rates[i].to != d;
    RateOnFinds(rates, d + 1);
    assert rates[i].from <= d + 1 <= rates[i].to;
    var j :| 0 <= j < |rates| && rates[j].from <= d + 1 <= rates[j].to && RateOn(rates, d + 1) == Some(rates[j].rate);
    assert i == j;
  }

  // ---------- accrue_legs ----------

  /** The days the legs end on: the cuts in order, then `e`. */
  function LegEnds(rates: RateTable, s: Date, e: Date): (r: seq<Date>)
    ensures r != [] && r[|r| - 1] == e
    ensures forall j, k :: 0 <= j < k < |r| ==> r[j] < r[k]
    ensures forall d :: d in r <==> d == e || d in CutDays(rates, s, e)
  {
    var days := CutDays(rates, s, e);
    var cuts := Ascending(days);
    assert forall j :: 0 <= j < |cuts| ==> cuts[j] in days;
    cuts + [e]
  }

  function SumFactors(legs: seq<Leg>): real
    requires forall leg :: leg in legs ==> leg.Proper()
  {
    if legs == [] then 0.0 else SumFactors(legs[..|legs| - 1]) + legs[|legs| - 1].Factor()
  }

  /** The legs follow one another from `s` to `e` without gap or overlap. */
  ghost predicate Tile(legs: seq<Leg>, s: Date, e: Date) {
    && (forall leg :: leg in legs ==> leg.Proper())
    && (legs == [] ==> e <= s)
    && (legs != [] ==> legs[0].from == s && legs[|legs| - 1].to == e)
    && (forall j :: 0 < j < |legs| ==> legs[j].from == legs[j - 1].to)
  }

  /** Over a stretch of equal days the interest is one product. */
  lemma {:induction false} UniformStretch(rates: RateTable, s: Date, b: Date, price: real)
    requires s <= b
    requires forall d: Date :: s <= d < b ==> DayPrice(rates, d) == price
    ensures Interest(rates, s, b) == Over(price, b - s)
  {
    hide DayPrice, Over;
    if s < b {
      UniformStretch(rates, s, b - 1, price);
      OneMoreDay(price, b - 1 - s);
    } else {
      NoDays(price);
    }
  }

  /** A day price over a number of days. */
  function Over(price: real, days: int): real {
    price * days as real
  }

  lemma LegDayPrices(rates: RateTable, leg: Leg)
    requires leg.Proper() && leg.Uniform(rates)
    ensures forall d: Date :: leg.from <= d < leg.to ==> DayPrice(rates, d) == leg.rate / leg.daysInYear as real
  {
    hide Dec31, YearOf;
    forall d: Date | leg.from <= d < leg.to ensures DayPrice(rates, d) == leg.rate / leg.daysInYear as real {
      assert leg.from < d + 1 <= leg.to;
    }
  }

  lemma OneMoreDay(price: real, n: int)
    ensures Over(price, n) + price == Over(price, n + 1)
  {
    assert (n + 1) as real == n as real + 1.0;
  }

  lemma NoDays(price: real)
    ensures Over(price, 0) == 0.0
  {
  }

  /** A leg's factor is its day price times its days. */
  lemma FactorIsDays(leg: Leg)
    requires leg.Proper()
    ensures leg.Factor() == Over(leg.rate / leg.daysInYear as real, leg.days)
  {
  }

  /** With no cut strictly inside (s, b), the price of the first day holds to `b`. */
  lemma {:induction false} NoCutNoChange(rates: RateTable, s: Date, b: Date)
    requires s < b && StepsAtCuts(rates) && RateOn(rates, s + 1).Some?
    requires forall d: Date :: s < d < b ==> !IsCut(rates, d)
    ensures forall d: Date :: s < d <= b ==>
              RateOn(rates, d) == RateOn(rates, s + 1) && DaysInYear(YearOf(d)) == DaysInYear(YearOf(s + 1))
  {
    hide DaysInYear;
    if s + 1 < b {
      NoCutNoChange(rates, s, b - 1);
      var d := b - 1;
      assert !IsCut(rates, d);
      assert RateOn(rates, d) == RateOn(rates, s + 1);
      SameYear(rates, d);
      assert RateOn(rates, d + 1) == RateOn(rates, d);
      hide IsCut, RateOn, YearOf, StepsAtCuts;
    }
  }

  lemma SameYear(rates: RateTable, d: Date)
    requires !IsCut(rates, d)
    ensures YearOf(d + 1) == YearOf(d)
  {
    hide Dec31;
    YearOfUnique(d + 1, YearOf(d));
  }

  /** The legs carry exactly the day-by-day interest of (s, e]. */
  ghost predicate PriceEveryDay(legs: seq<Leg>, rates: RateTable, s: Date, e: Date)
    requires Tile(legs, s, e)
  {
    && RatedThrough(rates, s, e)
    && SumFactors(legs) == Interest(rates, s, e)
    && forall leg :: leg in legs ==> leg.Uniform(rates)
  }

  lemma AppendLeg(legs: seq<Leg>, start: Date, leg: Leg)
    requires leg.Proper() && start <= leg.from && Tile(legs, start, leg.from)
    requires legs == [] ==> start == leg.from
    ensures Tile(legs + [leg], start, leg.to)
    ensures SumFactors(legs + [leg]) == SumFactors(legs) + leg.Factor()
  {
    assert (legs + [leg])[..|legs|] == legs;
  }

  /** A leg with no cut strictly inside it is one stretch of equal days. */
  lemma UncutLeg(rates: RateTable, start: Date, end: Date, leg: Leg)
    requires StepsAtCuts(rates)
    requires leg.Proper() && start <= leg.from && leg.to <= end
    requires RateOn(rates, leg.from + 1) == Some(leg.rate) && leg.daysInYear == DaysInYear(YearOf(leg.from + 1))
    requires forall d :: d in CutDays(rates, start, end) ==> !(leg.from < d < leg.to)
    ensures leg.Uniform(rates) && Interest(rates, leg.from, leg.to) == leg.Factor()
  {
    hide Dec31, YearOf, IsCut, DayPrice, RateOn, StepsAtCuts, Over;
    forall d: Date | leg.from < d < leg.to ensures !IsCut(rates, d) {
      CutDaysAreTheCuts(rates, start, end, d);
    }
    NoCutNoChange(rates, leg.from, leg.to);
    LegDayPrices(rates, leg);
    UniformStretch(rates, leg.from, leg.to, leg.rate / leg.daysInYear as real);
    FactorIsDays(leg);
  }

  lemma AppendUncutLeg(legs: seq<Leg>, rates: RateTable, start: Date, end: Date, leg: Leg)
    requires StepsAtCuts(rates)
    requires leg.Proper() && start <= leg.from && leg.to <= end && Tile(legs, start, leg.from)
    requires legs == [] ==> start == leg.from
    requires RateOn(rates, leg.from + 1) == Some(leg.rate) && leg.daysInYear == DaysInYear(YearOf(leg.from + 1))
    requires forall d :: d in CutDays(rates, start, end) ==> !(leg.from < d < leg.to)
    requires PriceEveryDay(legs, rates, start, leg.from)
    ensures Tile(legs + [leg], start, leg.to) && PriceEveryDay(legs + [leg], rates, start, leg.to)
  {
    assert leg.from < leg.to;
    hide *;
    UncutLeg(rates, start, end, leg);
    AppendLeg(legs, start, leg);
    InterestAdditive(rates, start, leg.from, leg.to);
    PriceOneMore(legs, rates, start, leg);
  }

  lemma PriceOneMore(legs: seq<Leg>, rates: RateTable, start: Date, leg: Leg)
    requires leg.Proper() && Tile(legs, start, leg.from) && Tile(legs + [leg], start, leg.to)
    requires PriceEveryDay(legs, rates, start, leg.from) && leg.Uniform(rates)
    requires SumFactors(legs + [leg]) == SumFactors(legs) + leg.Factor()
    requires Interest(rates, start, leg.to) == Interest(rates, start, leg.from) + Interest(rates, leg.from, leg.to)
    requires Interest(rates, leg.from, leg.to) == leg.Factor()
    ensures PriceEveryDay(legs + [leg], rates, start, leg.to)
  {
    hide Dec31, YearOf, DayPrice, RateOn, StepsAtCuts, Tile, SumFactors, Interest, CutDays, Leg.Factor;
  }

  lemma NoLegs(rates: RateTable, s: Date)
    ensures Tile([], s, s) && PriceEveryDay([], rates, s, s)
  {
  }

  lemma PricedDaysAreRated(legs: seq<Leg>, rates: RateTable, s: Date, e: Date)
    requires Tile(legs, s, e) && PriceEveryDay(legs, rates, s, e)
    ensures RatedThrough(rates, s, e)
  {
  }

  /** The legs from `s` on that end on the given days, or the first day priced that has no rate. */
  function LegsTo(rates: RateTable, s: Date, ends: seq<Date>): Result<seq<Leg>, Date>
    decreases |ends|
  {
    if ends == [] then Ok([])
    else if ends[0] <= s then LegsTo(rates, s, ends[1..])
    else
      match RateOn(rates, s + 1)
      case None => Err(s + 1)
      case Some(rate) => Following([LegTo(rate, s, ends[0])], LegsTo(rates, ends[0], ends[1..]))
  }

  function LegTo(rate: real, s: Date, b: Date): Leg {
    Leg(s, b, b - s, rate, DaysInYear(YearOf(s + 1)))
  }

  function Following(legs: seq<Leg>, r: Result<seq<Leg>, Date>): Result<seq<Leg>, Date> {
    match r
    case Err(day) => Err(day)
    case Ok(later) => Ok(legs + later)
  }

  function Legs(rates: RateTable, start: Date, end: Date): Result<seq<Leg>, Date> {
    LegsTo(rates, start, LegEnds(rates, start, end))
  }

  /** What the legs of a stretch are, on any table and on one that steps at cuts only. */
  ghost predicate LegsOk(r: Result<seq<Leg>, Date>, rates: RateTable, start: Date, end: Date) {
    match r
    case Ok(legs) =>
      && (start <= end ==> Tile(legs, start, end)) && (end <= start ==> legs == [])
      && (StepsAtCuts(rates) && start <= end ==> PriceEveryDay(legs, rates, start, end))
    case Err(day) =>
      && start < day <= end && RateOn(rates, day).None?
      && (StepsAtCuts(rates) ==> RatedThrough(rates, start, day - 1))
  }

  /** Having reached `s` with `legs`, the legs to the remaining ends complete the stretch. */
  ghost predicate Reached(legs: seq<Leg>, rates: RateTable, start: Date, end: Date, s: Date, i: nat)
  {
    var ends := LegEnds(rates, start, end);
    && i <= |ends| && s == (if i == 0 || ends[i - 1] < start then start else ends[i - 1])
    && Tile(legs, start, s) && (legs == [] ==> s == start) && (end <= start ==> legs == [])
    && (StepsAtCuts(rates) ==> PriceEveryDay(legs, rates, start, s))
  }

  lemma {:induction false} LegsComplete(legs: seq<Leg>, rates: RateTable, start: Date, end: Date, s: Date, i: nat)
    requires Reached(legs, rates, start, end, s, i)
    ensures LegsOk(Following(legs, LegsTo(rates, s, LegEnds(rates, start, end)[i..])), rates, start, end)
    decreases |LegEnds(rates, start, end)| - i
  {
    var ends := LegEnds(rates, start, end);
    hide LegEnds, StepsAtCuts, Tile, PriceEveryDay, RatedThrough, RateOn, Legs, Dec31, YearOf, Interest, SumFactors;
    if i == |ends| {
      assert ends[i..] == [] && legs + [] == legs;
    } else {
      var b := ends[i];
      assert ends[i..][0] == b && ends[i..][1..] == ends[i + 1..];
      if b <= s {
        StillReached(legs, rates, start, end, s, i);
        LegsComplete(legs, rates, start, end, s, i + 1);
      } else {
        match RateOn(rates, s + 1) {
          case None => FirstUnrated(legs, rates, start, end, s, i);
          case Some(rate) =>
            OneMoreLegReached(legs, rates, start, end, s, i, rate);
            LegsComplete(legs + [LegTo(rate, s, b)], rates, start, end, b, i + 1);
            FollowingJoins(legs, [LegTo(rate, s, b)], LegsTo(rates, b, ends[i + 1..]));
        }
      }
    }
  }

  lemma FollowingJoins(a: seq<Leg>, b: seq<Leg>, r: Result<seq<Leg>, Date>)
    ensures Following(a, Following(b, r)) == Following(a + b, r)
  {
    if r.Ok? {
      assert a + (b + r.value) == a + b + r.value;
    }
  }

  lemma StillReached(legs: seq<Leg>, rates: RateTable, start: Date, end: Date, s: Date, i: nat)
    requires Reached(legs, rates, start, end, s, i) && i < |LegEnds(rates, start, end)|
               && LegEnds(rates, start, end)[i] <= s
    ensures Reached(legs, rates, start, end, s, i + 1)
  {
    hide StepsAtCuts, Tile, PriceEveryDay;
  }

  /** The days reached so far end between the start and the end, with no cut before the next leg's end. */
  lemma ReachedDays(legs: seq<Leg>, rates: RateTable, start: Date, end: Date, s: Date, i: nat)
    requires Reached(legs, rates, start, end, s, i) && i < |LegEnds(rates, start, end)|
               && s < LegEnds(rates, start, end)[i]
    ensures start <= s && LegEnds(rates, start, end)[i] <= end
    ensures forall d :: d in CutDays(rates, start, end) ==> !(s < d < LegEnds(rates, start, end)[i])
  {
    hide StepsAtCuts, Tile, PriceEveryDay, RateOn, RatedThrough, Dec31, YearOf, CutDays, LegEnds;
    var ends := LegEnds(rates, start, end);
    forall d | d in CutDays(rates, start, end) ensures !(s < d < ends[i]) {
      var k :| 0 <= k < |ends| && ends[k] == d;
    }
  }

  lemma FirstUnrated(legs: seq<Leg>, rates: RateTable, start: Date, end: Date, s: Date, i: nat)
    requires Reached(legs, rates, start, end, s, i) && i < |LegEnds(rates, start, end)|
               && s < LegEnds(rates, start, end)[i]
    requires RateOn(rates, s + 1).None?
    ensures LegsOk(Err(s + 1), rates, start, end)
  {
    hide StepsAtCuts, Tile, PriceEveryDay, RateOn, RatedThrough, Dec31, YearOf, LegEnds;
    ReachedDays(legs, rates, start, end, s, i);
    if StepsAtCuts(rates) { PricedDaysAreRated(legs, rates, start, s); }
  }

  lemma OneMoreLegReached(legs: seq<Leg>, rates: RateTable, start: Date, end: Date, s: Date, i: nat, rate: real)
    requires Reached(legs, rates, start, end, s, i) && i < |LegEnds(rates, start, end)|
               && s < LegEnds(rates, start, end)[i]
    requires RateOn(rates, s + 1) == Some(rate)
    ensures Reached(legs + [LegTo(rate, s, LegEnds(rates, start, end)[i])], rates, start, end,
              LegEnds(rates, start, end)[i], i + 1)
  {
    hide StepsAtCuts, Tile, PriceEveryDay, RateOn, RatedThrough, Dec31, YearOf, SumFactors, CutDays, LegEnds;
    ReachedDays(legs, rates, start, end, s, i);
    var leg := LegTo(rate, s, LegEnds(rates, start, end)[i]);
    AppendLeg(legs, start, leg);
    if StepsAtCuts(rates) {
      AppendUncutLeg(legs, rates, start, end, leg);
    }
  }

  lemma LegsAreOk(rates: RateTable, start: Date, end: Date)
    ensures LegsOk(Legs(rates, start, end), rates, start, end)
  {
    NoLegs(rates, start);
    var ends := LegEnds(rates, start, end);
    assert ends[0..] == ends;
    assert Reached([], rates, start, end, start, 0);
    LegsComplete([], rates, start, end, start, 0);
    FollowingNone(LegsTo(rates, start, ends));
    hide LegsOk, LegsTo, LegEnds;
  }

  lemma FollowingNone(r: Result<seq<Leg>, Date>)
    ensures Following([], r) == r
  {
    if r.Ok? {
      assert [] + r.value == r.value;
    }
  }

  /** The loop's invariant at its start, through one end, and at its end. */
  lemma NoLegsYet(rates: RateTable, start: Date, end: Date)
    ensures LegEnds(rates, start, end)[0..] == LegEnds(rates, start, end)
    ensures Following([], LegsTo(rates, start, LegEnds(rates, start, end))) == Legs(rates, start, end)
  {
    hide LegEnds, LegsTo, Following;
    FollowingNone(LegsTo(rates, start, LegEnds(rates, start, end)));
  }

  lemma NextLeg(legs: seq<Leg>, rates: RateTable, s: Date, ends: seq<Date>, i: nat)
    requires i < |ends|
    ensures var all, rest := LegsTo(rates, s, ends[i..]), ends[i + 1..];
            if ends[i] <= s then all == LegsTo(rates, s, rest)
            else match RateOn(rates, s + 1)
              case None => Following(legs, all) == Err(s + 1)
              case Some(rate) =>
                var leg := Leg(s, ends[i], ends[i] - s, rate, DaysInYear(YearOf(s + 1)));
                Following(legs, all) == Following(legs + [leg], LegsTo(rates, ends[i], rest))
  {
    hide RateOn, YearOf;
    assert ends[i..][1..] == ends[i + 1..];
    if s < ends[i] && RateOn(rates, s + 1).Some? {
      FollowingJoins(legs, [LegTo(RateOn(rates, s + 1).value, s, ends[i])], LegsTo(rates, ends[i], ends[i + 1..]));
    }
  }

  lemma AllLegs(legs: seq<Leg>, rates: RateTable, s: Date, ends: seq<Date>)
    ensures Following(legs, LegsTo(rates, s, ends[|ends|..])) == Ok(legs)
  {
    assert ends[|ends|..] == [] && legs + [] == legs;
  }

  /** Legs end at `e` or at a cut, and no cut is strictly inside one. */
  ghost predicate CutExactly(legs: seq<Leg>, rates: RateTable, e: Date) {
    forall leg :: leg in legs ==> (leg.to == e || IsCut(rates, leg.to)) && UncutInside(rates, leg)
  }

  ghost predicate UncutInside(rates: RateTable, leg: Leg) {
    forall d: Date :: leg.from < d < leg.to ==> !IsCut(rates, d)
  }

  lemma {:induction false} LegsEndThere(rates: RateTable, s: Date, ends: seq<Date>)
    requires forall j, k :: 0 <= j < k < |ends| ==> ends[j] < ends[k]
    ensures var r := LegsTo(rates, s, ends);
            r.Ok? ==> forall leg :: leg in r.value ==>
              s <= leg.from < leg.to && leg.to in ends && forall d :: d in ends ==> !(leg.from < d < leg.to)
    decreases |ends|
  {
    hide RateOn, DaysInYear, YearOf;
    if ends != [] {
      var b, rest := ends[0], ends[1..];
      assert ends == [b] + rest;
      LegsEndThere(rates, if b <= s then s else b, rest);
    }
  }

  lemma LegsCutExactly(rates: RateTable, start: Date, end: Date)
    requires start <= end && Legs(rates, start, end).Ok?
    ensures CutExactly(Legs(rates, start, end).value, rates, end)
  {
    hide LegsTo, LegEnds, CutDays, IsCut;
    var ends := LegEnds(rates, start, end);
    LegsEndThere(rates, start, ends);
    forall leg | leg in Legs(rates, start, end).value
      ensures (leg.to == end || IsCut(rates, leg.to)) && UncutInside(rates, leg)
    {
      if leg.to in CutDays(rates, start, end) { CutDaysAreTheCuts(rates, start, end, leg.to); }
      forall d: Date | leg.from < d < leg.to ensures !IsCut(rates, d) {
        EndsInside(rates, start, end, leg.to);
        CutDaysAreTheCuts(rates, start, end, d);
      }
    }
  }

  lemma EndsInside(rates: RateTable, start: Date, end: Date, d: Date)
    requires d in LegEnds(rates, start, end) && start <= end
    ensures d <= end
  {
    hide CutDays, IsCut;
  }

  /** Legs that tile a stretch are in order and cover each day of it. */
  lemma {:induction false} TilesInOrder(legs: seq<Leg>, s: Date, e: Date)
    requires Tile(legs, s, e)
    ensures forall j, k :: 0 <= j < k < |legs| ==> legs[j].to <= legs[k].from
    ensures forall j :: 0 <= j < |legs| ==> s <= legs[j].from < legs[j].to <= e
  {
    if legs != [] {
      var n := |legs| - 1;
      var last := legs[n];
      assert last in legs && last.from < last.to == e;
      TilesInOrder(legs[..n], s, last.from);
      assert forall j :: 0 <= j < n ==> legs[..n][j] == legs[j];
      assert n > 0 ==> legs[n - 1] == legs[..n][n - 1];
      assert s <= last.from;
    }
  }

  lemma {:induction false} TilesCover(legs: seq<Leg>, s: Date, e: Date, d: Date)
    requires Tile(legs, s, e) && s <= d < e
    ensures exists k :: 0 <= k < |legs| && legs[k].from <= d < legs[k].to
  {
    var n := |legs| - 1;
    if d < legs[n].from {
      TilesCover(legs[..n], s, legs[n].from, d);
      var k :| 0 <= k < n && legs[..n][k].from <= d < legs[..n][k].to;
      assert legs[k].from <= d < legs[k].to;
    } else {
      assert legs[n].from <= d < legs[n].to;
    }
  }

  /** What the result is, spelled out. */
  lemma ResultOfLegs(rates: RateTable, start: Date, end: Date)
    requires LegsOk(Legs(rates, start, end), rates, start, end)
    ensures var r := Legs(rates, start, end);
            && (r.Ok? && start <= end ==> Tile(r.value, start, end))
            && (r.Ok? && end <= start ==> r.value == [])
            && (r.Err? ==> start < r.error <= end && RateOn(rates, r.error).None?)
            && (StepsAtCuts(rates) && r.Err? ==> RatedThrough(rates, start, r.error - 1))
            && (StepsAtCuts(rates) && r.Ok? && start <= end ==> PriceEveryDay(r.value, rates, start, end))
            && (r.Ok? && start <= end ==> CutExactly(r.value, rates, end))
  {
    hide RateOn, StepsAtCuts, Tile, PriceEveryDay, RatedThrough, Legs, CutExactly;
    if start <= end && Legs(rates, start, end).Ok? { LegsCutExactly(rates, start, end); }
  }

  /**
   * The legs of one balance from `start` to `end`, or the first day that has no rate.
   * Where the table steps at cuts only, the legs' interest is the day-by-day interest.
   */
  method AccrueLegs(start: Date, end: Date, rates: RateTable) returns (r: Result<seq<Leg>, Date>)
    ensures r == Legs(rates, start, end)
    ensures r.Ok? && start <= end ==> Tile(r.value, start, end)
    ensures r.Ok? && end <= start ==> r.value == []
    ensures r.Err? ==> start < r.error <= end && RateOn(rates, r.error).None?
    ensures StepsAtCuts(rates) && r.Err? ==> RatedThrough(rates, start, r.error - 1)
    ensures StepsAtCuts(rates) && r.Ok? && start <= end ==> PriceEveryDay(r.value, rates, start, end)
    ensures r.Ok? && start <= end ==> CutExactly(r.value, rates, end)
  {
    LegsAreOk(rates, start, end);
    hide *;
    var legs: seq<Leg> := [];
    var ends := LegEnds(rates, start, end);
    var s := start;
    NoLegsYet(rates, start, end);
    for i := 0 to |ends|
      invariant Following(legs, LegsTo(rates, s, ends[i..])) == Legs(rates, start, end)
    {
      var b := ends[i];
      NextLeg(legs, rates, s, ends, i);
      if b <= s { continue; }
      var priced := s + 1;
      match RateOn(rates, priced) {
        case None =>
          ResultOfLegs(rates, start, end);
          return Err(priced);
        case Some(rate) =>
          var leg := Leg(s, b, b - s, rate, DaysInYear(YearOf(priced)));
          legs := legs + [leg];
          s := b;
      }
    }
    AllLegs(legs, rates, s, ends);
    ResultOfLegs(rates, start, end);
    return Ok(legs);
  }

  // ---------- Exactly the tables that are priced right ----------

  /** The legs from `s` to `e`, if they can be priced, carry the day-by-day interest of days that all have a rate. */
  ghost predicate PricedRight(rates: RateTable, s: Date, e: Date) {
    match Legs(rates, s, e)
    case Err(_) => true
    case Ok(legs) =>
      (forall leg :: leg in legs ==> leg.Proper()) && SumFactors(legs) == Interest(rates, s, e)
        && RatedThrough(rates, s, e)
  }

  /** On every stretch the legs' interest is the day-by-day interest if and only if the table steps at cuts only. */
  lemma StepsAtCutsIsExact(rates: RateTable)
    ensures StepsAtCuts(rates) <==> forall s: Date, e: Date :: s <= e ==> PricedRight(rates, s, e)
  {
    if StepsAtCuts(rates) {
      forall s: Date, e: Date | s <= e ensures PricedRight(rates, s, e) {
        LegsAreOk(rates, s, e);
        hide StepsAtCuts, Legs, Interest, SumFactors, RatedThrough;
      }
    } else {
      UnsteadyTablesMisprice(rates);
    }
    hide PricedRight, StepsAtCuts;
  }

  /** A table that steps elsewhere prices some stretch of two days wrong, or over a day without a rate. */
  lemma UnsteadyTablesMisprice(rates: RateTable)
    requires !StepsAtCuts(rates)
    ensures exists s: Date, e: Date :: s <= e && !PricedRight(rates, s, e)
  {
    var d: Date :| 1 < d && RateOn(rates, d).Some? && !IsCut(rates, d) && RateOn(rates, d + 1) != RateOn(rates, d);
    UncutStepMisprices(rates, d);
  }

  /** A step after a day that is not a cut: the two days around it are one leg, at the first day's rate. */
  lemma UncutStepMisprices(rates: RateTable, d: Date)
    requires 1 < d && RateOn(rates, d).Some? && !IsCut(rates, d) && RateOn(rates, d + 1) != RateOn(rates, d)
    ensures Legs(rates, d - 1, d + 1) == Ok([LegTo(RateOn(rates, d).value, d - 1, d + 1)])
    ensures !PricedRight(rates, d - 1, d + 1)
  {
    hide LegEnds, YearOf, RateOn, Interest, IsCut, Legs, LegTo, SumFactors, RatedThrough, Leg.Factor, Leg.Proper;
    OneLeg(rates, d);
    OneLegMisprices(rates, d);
  }

  lemma OneEnd(rates: RateTable, d: Date)
    requires 1 < d && !IsCut(rates, d)
    ensures LegEnds(rates, d - 1, d + 1) == [d + 1]
  {
    assert CutDays(rates, d - 1, d + 1) == {} by {
      CutDaysAreTheCuts(rates, d - 1, d + 1, d);
    }
  }

  lemma NoMoreLegs(rates: RateTable, s: Date)
    ensures LegsTo(rates, s, []) == Ok([])
  {
  }

  lemma LegsToOneEnd(rates: RateTable, s: Date, b: Date)
    requires s < b && RateOn(rates, s + 1).Some?
    ensures LegsTo(rates, s, [b]) == Ok([LegTo(RateOn(rates, s + 1).value, s, b)])
  {
    hide RateOn, LegTo, Following;
    assert [b][1..] == [];
    OneFollows(LegTo(RateOn(rates, s + 1).value, s, b));
    NoMoreLegs(rates, b);
  }

  lemma OneFollows(leg: Leg)
    ensures Following([leg], Ok([])) == Ok([leg])
  {
    assert [leg] + [] == [leg];
  }

  lemma OneLeg(rates: RateTable, d: Date)
    requires 1 < d && RateOn(rates, d).Some? && !IsCut(rates, d)
    ensures Legs(rates, d - 1, d + 1) == Ok([LegTo(RateOn(rates, d).value, d - 1, d + 1)])
  {
    hide LegEnds, LegsTo, RateOn, IsCut, LegTo;
    OneEnd(rates, d);
    LegsToOneEnd(rates, d - 1, d + 1);
  }

  lemma OneLegMisprices(rates: RateTable, d: Date)
    requires 1 < d && RateOn(rates, d).Some? && !IsCut(rates, d) && RateOn(rates, d + 1) != RateOn(rates, d)
    ensures var leg := LegTo(RateOn(rates, d).value, d - 1, d + 1);
            leg.Proper() && (RatedThrough(rates, d - 1, d + 1) ==> SumFactors([leg]) != Interest(rates, d - 1, d + 1))
  {
    SameYear(rates, d);
    hide LegEnds, YearOf, RateOn, IsCut, Interest, DaysInYear;
    var leg := LegTo(RateOn(rates, d).value, d - 1, d + 1);
    assert [leg][..0] == [] && SumFactors([leg]) == leg.Factor();
    assert DaysInYear(YearOf(d)) > 0;
    if RatedThrough(rates, d - 1, d + 1) {
      assert RateOn(rates, d + 1).Some?;
      TwoDays(rates, d);
      TwiceIsNotBoth(leg.rate, RateOn(rates, d + 1).value, leg.daysInYear as real);
    }
  }

  lemma TwoDays(rates: RateTable, d: Date)
    requires 1 < d && RateOn(rates, d).Some? && RateOn(rates, d + 1).Some? && YearOf(d + 1) == YearOf(d)
    ensures Interest(rates, d - 1, d + 1) == RateOn(rates, d).value / DaysInYear(YearOf(d)) as real
                                           + RateOn(rates, d + 1).value / DaysInYear(YearOf(d)) as real
  {
    hide RateOn, YearOf, DaysInYear;
    assert Interest(rates, d - 1, d - 1) == 0.0;
    assert Interest(rates, d - 1, d) == DayPrice(rates, d - 1);
  }

  lemma TwiceIsNotBoth(x: real, y: real, days: real)
    requires x != y && 0.0 < days
    ensures x * 2.0 / days != x / days + y / days
  {
    assert x * 2.0 / days == x / days + x / days;
    SameQuotient(x, y, days);
  }

  lemma SameQuotient(x: real, y: real, days: real)
    requires 0.0 < days
    ensures x / days == y / days ==> x == y
  {
    assert x / days * days == x && y / days * days == y;
  }

  /** Two overlapping periods, the later one listed first. */
  const OVERLAPPING: RateTable := [Period(50, 90, 0.07), Period(10, 60, 0.06)]

  lemma OverlappingRates()
    ensures RateOn(OVERLAPPING, 49) == Some(0.06) && RateOn(OVERLAPPING, 50) == Some(0.07)
  {
    assert OVERLAPPING[1..] == [Period(10, 60, 0.06)];
  }

  lemma NoCutInTheMiddle()
    ensures !IsCut(OVERLAPPING, 49)
  {
    FirstYear();
    hide Dec31, YearOf;
    assert forall p :: p in OVERLAPPING ==> p.to != 49;
  }

  /** Days 48 to 50 are charged two days at 6%, not one at 7%. */
  lemma OverlappingPeriodsMisprice()
    ensures Legs(OVERLAPPING, 48, 50) == Ok([Leg(48, 50, 2, 0.06, 365)])
    ensures !PricedRight(OVERLAPPING, 48, 50)
  {
    hide *;
    OverlappingRates();
    NoCutInTheMiddle();
    UncutStepMisprices(OVERLAPPING, 49);
    TwoDaysAtSixPercent();
  }

  lemma TwoDaysAtSixPercent()
    ensures LegTo(0.06, 48, 50) == Leg(48, 50, 2, 0.06, 365)
  {
    FirstYear();
    hide Dec31, YearOf;
    assert DaysInYear(1) == 365;
  }

  lemma FirstYear()
    ensures YearOf(49) == 1 && Dec31(1) == 365
  {
    hide YearOf;
    assert Dec31(0) == 0 && Dec31(1) == 365;
    YearOfUnique(49, 1);
  }
}
