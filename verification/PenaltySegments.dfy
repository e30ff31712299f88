/** The segments a row reports: which days they cover, on which balance and at which rate. */
module PenaltySegments {
  import opened Wrappers
  import opened Calendar
  import opened UnderpaymentInterest
  import opened Estimate
  import opened PenaltyBook
  import opened PenaltyEvents
  import opened PenaltyLedger
  import opened PenaltyReplay

  /** The segments follow one another without overlap inside [due, e]. */
  ghost predicate InLine(segments: seq<Segment>, due: Date, e: Date) {
    && (forall k :: 0 <= k < |segments| ==> due <= segments[k].leg.from < segments[k].leg.to <= e)
    && (forall j, k :: 0 <= j < k < |segments| ==> segments[j].leg.to <= segments[k].leg.from)
  }

  /** A segment covers day `d`, that is, the interest from `d` to `d + 1`. */
  ghost predicate Covered(segments: seq<Segment>, d: Date) {
    exists k :: 0 <= k < |segments| && segments[k].leg.from <= d < segments[k].leg.to
  }

  ghost predicate EventOn(es: seq<Event>, d: Date) {
    exists x :: x in es && x.date == d
  }

  /** A segment may end at an event, a period end or a December 31. */
  ghost predicate IsEnd(es: seq<Event>, rates: RateTable, d: Date) {
    EventOn(es, d) || IsCut(rates, d)
  }

  /**
   * The segment charges the balance of installment `i` as it stands on each of its days, at the rate and with the year
   * length of the day after; it ends where a segment may end, and at the first such day.
   */
  ghost predicate Charges(es: seq<Event>, rates: RateTable, i: nat, g: Segment) {
    && g.leg.Proper() && g.leg.Uniform(rates) && 0.0 < g.balance
    && (forall d: Date :: g.leg.from <= d < g.leg.to ==> BalanceOn(es, i, d) == g.balance)
    && IsEnd(es, rates, g.leg.to)
    && (forall d: Date :: g.leg.from < d < g.leg.to ==> !IsEnd(es, rates, d))
  }

  /**
   * The segments of installment `i` up to `e`: in line, each as it should be, and covering every day with a balance.
   */
  ghost predicate Itemizes(es: seq<Event>, rates: RateTable, i: nat, segments: seq<Segment>, due: Date, e: Date) {
    && InLine(segments, due, e)
    && (forall g :: g in segments ==> Charges(es, rates, i, g))
    && (forall d: Date :: d < e && 0.0 < BalanceOn(es, i, d) ==> Covered(segments, d))
  }

  /** No day is in two segments. */
  lemma OneSegmentADay(segments: seq<Segment>, due: Date, e: Date, d: Date, j: nat, k: nat)
    requires InLine(segments, due, e) && j < |segments| && k < |segments|
    requires segments[j].leg.from <= d < segments[j].leg.to && segments[k].leg.from <= d < segments[k].leg.to
    ensures j == k
  {
  }

  lemma InLineAppend(a: seq<Segment>, b: seq<Segment>, due: Date, s: Date, e: Date)
    requires InLine(a, due, s) && InLine(b, s, e) && due <= s <= e
    ensures InLine(a + b, due, e)
  {
  }

  lemma CoveredAppend(a: seq<Segment>, b: seq<Segment>, d: Date)
    ensures Covered(a, d) || Covered(b, d) ==> Covered(a + b, d)
  {
    if k :| 0 <= k < |a| && a[k].leg.from <= d < a[k].leg.to {
      assert (a + b)[k] == a[k];
    }
    if k :| 0 <= k < |b| && b[k].leg.from <= d < b[k].leg.to {
      assert (a + b)[|a| + k] == b[k];
    }
  }

  lemma LegsInLine(balance: real, legs: seq<Leg>, s: Date, e: Date)
    requires Tile(legs, s, e)
    ensures InLine(Segments(balance, legs), s, e)
    ensures forall d: Date :: s <= d < e ==> Covered(Segments(balance, legs), d)
  {
    hide Tile;
    TilesInOrder(legs, s, e);
    forall d: Date | s <= d < e ensures Covered(Segments(balance, legs), d) {
      TilesCover(legs, s, e, d);
      var k :| 0 <= k < |legs| && legs[k].from <= d < legs[k].to;
      assert Segments(balance, legs)[k].leg == legs[k];
    }
  }

  /** One leg of a stretch of steady balance between two events. */
  lemma LegCharges(es: seq<Event>, rates: RateTable, i: nat, s: Date, e: Date, balance: real, leg: Leg)
    requires s <= leg.from < leg.to <= e && leg.Proper() && leg.Uniform(rates) && 0.0 < balance
    requires forall d: Date :: s <= d < e ==> BalanceOn(es, i, d) == balance
    requires EventOn(es, e) && forall d: Date :: s < d < e ==> !EventOn(es, d)
    requires (leg.to == e || IsCut(rates, leg.to)) && UncutInside(rates, leg)
    ensures Charges(es, rates, i, Segment(balance, leg))
  {
    hide BalanceOn, EventOn, IsCut, Leg.Uniform, Leg.Proper;
  }

  /** What accruing a steady, positive balance from one event to the next adds. */
  lemma StretchItemized(es: seq<Event>, rates: RateTable, i: nat, s: Date, e: Date, balance: real)
    requires s < e && StepsAtCuts(rates) && RatedThrough(rates, s, e) && 0.0 < balance
    requires forall d: Date :: s <= d < e ==> BalanceOn(es, i, d) == balance
    requires EventOn(es, e) && forall d: Date :: s < d < e ==> !EventOn(es, d)
    ensures Legs(rates, s, e).Ok?
    ensures var added := Segments(balance, Legs(rates, s, e).value);
            && InLine(added, s, e) && (forall g :: g in added ==> Charges(es, rates, i, g))
            && (forall d: Date :: s <= d < e ==> Covered(added, d))
  {
    hide BalanceOn, EventOn, IsCut, StepsAtCuts, Legs, RateOn, Tile, Charges, InLine, Covered, Interest, SumFactors,
      Leg.Uniform, UncutInside;
    LegsAreOk(rates, s, e);
    ResultOfLegs(rates, s, e);
    var legs := Legs(rates, s, e).value;
    LegsInLine(balance, legs, s, e);
    TilesInOrder(legs, s, e);
    TilesAreProper(legs, s, e);
    forall k | 0 <= k < |legs| ensures Charges(es, rates, i, Segments(balance, legs)[k]) {
      assert legs[k] in legs;
      LegCharges(es, rates, i, s, e, balance, legs[k]);
    }
  }

  lemma TilesAreProper(legs: seq<Leg>, s: Date, e: Date)
    requires Tile(legs, s, e)
    ensures forall leg :: leg in legs ==> leg.Proper()
  {
  }

  /** Accruing a row's steady balance from one event to the next extends its items to it. */
  lemma ItemsGain(es: seq<Event>, rates: RateTable, i: nat, segments: seq<Segment>, due: Date, s: Date, e: Date,
          balance: real, last: Option<Date>)
    requires StepsAtCuts(rates) && s <= e && Itemizes(es, rates, i, segments, due, s)
    requires forall d: Date :: s <= d < e ==> BalanceOn(es, i, d) == balance
    requires s < e ==> EventOn(es, e) && forall d: Date :: s < d < e ==> !EventOn(es, d)
    requires last.None? ==> balance == 0.0
    requires last.Some? ==> last.value == s || (s == e && e <= last.value)
    requires last.Some? && s < e ==> due <= s
    requires 0.0 < balance && last.Some? ==> RatedThrough(rates, last.value, e)
    ensures Itemizes(es, rates, i, segments + Added(rates, balance, last, e), due, e)
  {
    hide BalanceOn, EventOn, StepsAtCuts, Legs, RatedThrough, Charges, InLine, Covered, Segments;
    var added := Added(rates, balance, last, e);
    if s < e && 0.0 < balance {
      StretchItemized(es, rates, i, s, e, balance);
      InLineAppend(segments, added, due, s, e);
      forall d: Date | d < e && 0.0 < BalanceOn(es, i, d) ensures Covered(segments + added, d) {
        CoveredAppend(segments, added, d);
      }
    } else {
      assert segments + added == segments;
      LaterEnd(segments, due, s, e);
    }
  }

  lemma LaterEnd(segments: seq<Segment>, due: Date, s: Date, e: Date)
    requires InLine(segments, due, s) && s <= e
    ensures InLine(segments, due, e)
  {
  }

  // ---------- Along the replay ----------

  /** Every row is itemized up to `e`. */
  ghost predicate Itemized(c: Estimate, rates: RateTable, es: seq<Event>, segments: seq<seq<Segment>>, e: Date) {
    && |segments| == |c.dueDates|
    && forall i :: 0 <= i < |segments| ==> Itemizes(es, rates, i, segments[i], c.dueDates[i], e)
  }

  /** Between the clock and the next event, neither past the return due date, there is no event. */
  lemma NoEventBetween(c: Estimate, es: seq<Event>, j: nat)
    requires IsReplay(c, es) && j < |es|
    ensures var s, e := Earlier(Clock(es, j), c.returnDue), Earlier(es[j].date, c.returnDue);
            s <= e && EventOn(es, e) && forall d: Date :: s < d < e ==> !EventOn(es, d)
  {
    hide Dues, DueEvents;
    ClockAdvances(es, j);
    var s, e := Earlier(Clock(es, j), c.returnDue), Earlier(es[j].date, c.returnDue);
    assert es[j] in es;
    forall d: Date | s < d < e ensures !EventOn(es, d) {
      forall k | 0 <= k < |es| ensures es[k].date != d {
        if k < j {
          if k < j - 1 { assert NotAfter(es[k], es[j - 1]); }
        } else if j < k {
          assert NotAfter(es[j], es[k]);
        }
      }
    }
  }

  lemma RowWhere(c: Estimate, es: seq<Event>, j: nat, balance: seq<real>, last: seq<Option<Date>>, over: real,
          book: Book, i: nat)
    requires IsReplay(c, es) && j < |es| && InStep(c, es, j, Clock(es, j), balance, last, over, book) && i < |balance|
    ensures |last| == |balance| == |c.dueDates|
    ensures var s, e := Earlier(Clock(es, j), c.returnDue), Earlier(es[j].date, c.returnDue);
            && (last[i].None? ==> balance[i] == 0.0)
            && (last[i].Some? ==> last[i].value == s || (s == e && e <= last[i].value))
            && (last[i].Some? && s < e ==> c.dueDates[i] <= s)
            && forall d: Date :: s <= d < e ==> BalanceOn(es, i, d) == balance[i]
  {
    hide PaidInAll, Dues, After, Book.Valid;
    ClockAdvances(es, j);
    var s, e := Earlier(Clock(es, j), c.returnDue), Earlier(es[j].date, c.returnDue);
    forall d: Date | s <= d < e ensures BalanceOn(es, i, d) == balance[i] {
      BookSteady(es, j, d);
    }
  }

  lemma AllItemize(c: Estimate, rates: RateTable, es: seq<Event>, j: nat, balance: seq<real>, last: seq<Option<Date>>,
          over: real, book: Book, segments: seq<seq<Segment>>, segments': seq<seq<Segment>>, penalty: seq<real>,
          penalty': seq<real>, last': seq<Option<Date>>)
    requires IsReplay(c, es) && j < |es| && InStep(c, es, j, Clock(es, j), balance, last, over, book)
    requires StepsAtCuts(rates) && Itemized(c, rates, es, segments, Earlier(Clock(es, j), c.returnDue))
    requires |balance| == |last| == |segments| == |segments'| == |penalty| == |penalty'| == |last'|
    requires forall i :: 0 <= i < |balance| ==>
               && Accrued(rates, balance[i], penalty[i], last[i], penalty'[i], last'[i],
                    Earlier(es[j].date, c.returnDue))
               && segments'[i] == segments[i] + Added(rates, balance[i], last[i], Earlier(es[j].date, c.returnDue))
    ensures Itemized(c, rates, es, segments', Earlier(es[j].date, c.returnDue))
  {
    hide IsReplay, InStep, BalanceOn, StepsAtCuts, Itemizes, Added, RatedThrough, Gain, EventOn;
    NoEventBetween(c, es, j);
    var s, e := Earlier(Clock(es, j), c.returnDue), Earlier(es[j].date, c.returnDue);
    forall i: nat | i < |balance| ensures Itemizes(es, rates, i, segments'[i], c.dueDates[i], e) {
      RowWhere(c, es, j, balance, last, over, book, i);
      ItemsGain(es, rates, i, segments[i], c.dueDates[i], s, e, balance[i], last[i]);
    }
  }

  lemma NothingItemized(c: Estimate, rates: RateTable, es: seq<Event>, segments: seq<seq<Segment>>)
    requires |segments| == |c.dueDates| && forall i :: 0 <= i < |segments| ==> segments[i] == []
    ensures Itemized(c, rates, es, segments, 1)
  {
  }
}
