/** When the ledger charges interest on more than the shortfall: exactly after a negative payment takes money back. */
module PenaltyOvercharge {
  import opened Calendar
  import opened UnderpaymentInterest
  import opened Estimate
  import opened PenaltyBook
  import opened PenaltyEvents
  import opened PenaltyReplay

  /** What is paid beyond what has fallen due. */
  function Standing(es: seq<Event>): real {
    if es == [] then 0.0
    else
      var n := |es| - 1;
      Standing(es[..n]) + match es[n].kind case Due => -es[n].amount case Pay => es[n].amount case End => 0.0
  }

  /**
   * A negative payment that takes back: it comes while more is paid than has fallen due, or before anything has fallen
   * due and is more than what is on hand.
   */
  predicate TakesBack(before: seq<Event>, e: Event) {
    && e.kind.Pay? && e.amount < 0.0
    && if Dues(before) == [] then Standing(before) + e.amount < 0.0 else 0.0 < Standing(before)
  }

  predicate NothingTakenBack(es: seq<Event>) {
    es != [] ==>
      var before := es[..|es| - 1];
      NothingTakenBack(before) && !TakesBack(before, es[|es| - 1])
  }

  /** The balances were the shortfall after every event. */
  predicate NeverOvercharged(es: seq<Event>) {
    After(es).Overcharge() == 0.0 && (es != [] ==> NeverOvercharged(es[..|es| - 1]))
  }

  lemma {:induction false} StandingIsThePosition(es: seq<Event>)
    requires DuesNonNegative(es)
    ensures After(es).Valid() && After(es).Position() == Standing(es)
  {
    hide Book.Position, Apply, Dues;
    if es == [] {
      EmptyPosition();
    } else {
      var n := |es| - 1;
      StandingIsThePosition(es[..n]);
      ApplyMovesThePosition(After(es[..n]), es[n]);
    }
  }

  lemma EmptyPosition()
    ensures EMPTY.Position() == 0.0
  {
  }

  /** One event, on a book that charges the shortfall alone. */
  lemma EventTakesBack(b: Book, e: Event)
    requires b.Valid() && b.Overcharge() == 0.0 && (e.kind.Due? ==> 0.0 <= e.amount)
    ensures Apply(b, e).Overcharge() == 0.0 <==>
              !(e.kind.Pay? && e.amount < 0.0 &&
                if b.balance == [] then b.Position() + e.amount < 0.0 else 0.0 < b.Position())
  {
    SumNonNegative(b.balance);
    if e.kind.Pay? && e.amount < 0.0 {
      if b.balance != [] {
        NegativePayment(b, e.amount);
        BalancesAreShortfallAndOvercharge(WithPayment(b, e.amount));
      }
    } else if !e.kind.End? {
      PlainEventKeeps(b, e);
    }
  }

  /**
   * For payments of any sign, in any order: the balances are the shortfall after every event if and only if no negative
   * payment takes back.
   */
  lemma {:induction false} OverchargedIffTakenBack(es: seq<Event>)
    requires DuesNonNegative(es)
    ensures NeverOvercharged(es) <==> NothingTakenBack(es)
  {
    hide Apply, Book.Overcharge, Book.Position, Standing, Dues;
    if es == [] {
      EmptyCharge();
    } else {
      var n := |es| - 1;
      OverchargedIffTakenBack(es[..n]);
      StandingIsThePosition(es[..n]);
      BalanceCount(es[..n]);
      if NeverOvercharged(es[..n]) { EventTakesBack(After(es[..n]), es[n]); }
    }
  }

  lemma EmptyCharge()
    ensures EMPTY.Overcharge() == 0.0
  {
  }

  lemma {:induction false} NoNegativeNothingTaken(es: seq<Event>)
    requires AmountsNonNegative(es)
    ensures NothingTakenBack(es)
  {
    if es != [] {
      NoNegativeNothingTaken(es[..|es| - 1]);
    }
  }

  // ---------- What it costs ----------

  lemma {:induction false} PrefixNotOvercharged(es: seq<Event>, j: nat)
    requires NeverOvercharged(es) && j <= |es|
    ensures After(es[..j]).Overcharge() == 0.0
  {
    hide After, Book.Overcharge;
    if j < |es| {
      PrefixNotOvercharged(es[..|es| - 1], j);
      assert es[..|es| - 1][..j] == es[..j];
    } else {
      assert es[..j] == es;
    }
  }

  /** The balances were the shortfall at the end of every day before `e`. */
  ghost predicate NoDayOvercharged(es: seq<Event>, e: Date) {
    forall d: Date :: d < e ==> BookOn(es, d).Overcharge() == 0.0
  }

  lemma NothingTakenNoDay(c: Estimate, e: Date)
    requires c.Shaped() && NothingTakenBack(Replay(c))
    ensures NoDayOvercharged(Replay(c), e)
  {
    var es := Replay(c);
    ReplayIsOrdered(c);
    DuesOfReplay(c);
    OverchargedIffTakenBack(es);
    hide Replay, NeverOvercharged, NothingTakenBack, Book.Overcharge, After;
    forall d: Date | d < e ensures BookOn(es, d).Overcharge() == 0.0 {
      var j := UptoSplits(es, d);
      PrefixNotOvercharged(es, j);
    }
  }

  lemma {:induction false} NoOverchargeNoInterest(es: seq<Event>, rates: RateTable, e: Date)
    requires NoDayOvercharged(es, e)
    ensures OverchargePenalty(es, rates, e) == 0.0
    decreases e
  {
    hide BookOn, DayPrice, Book.Overcharge;
    if 1 < e {
      NoOverchargeNoInterest(es, rates, e - 1);
    }
  }

  /** A table with a rate on the day after `d` only. */
  function OneRatedDay(d: Date): RateTable {
    [Period(d + 1, d + 1, 1.0)]
  }

  lemma PriceOfOneDay(d: Date, x: Date)
    ensures if x == d then 0.0 < DayPrice(OneRatedDay(d), x) else DayPrice(OneRatedDay(d), x) == 0.0
  {
    hide YearOf;
    var rates := OneRatedDay(d);
    assert rates[1..] == [] && RateOn([], x + 1).None?;
    assert 0 < DaysInYear(YearOf(x + 1));
  }

  lemma {:induction false} InterestOfOneDay(es: seq<Event>, d: Date, e: Date)
    ensures OverchargePenalty(es, OneRatedDay(d), e)
         == if d < e then BookOn(es, d).Overcharge() * DayPrice(OneRatedDay(d), d) else 0.0
    decreases e
  {
    hide BookOn, DayPrice, Book.Overcharge, OneRatedDay;
    if 1 < e {
      InterestOfOneDay(es, d, e - 1);
      PriceOfOneDay(d, e - 1);
    }
  }

  /**
   * For payments of any sign the total is the interest on the shortfall alone, whatever the rates, if and only if the
   * balances are the shortfall at the end of every day; that is so when no negative payment takes back.
   */
  lemma TotalIsTheShortfallAlone(c: Estimate, e: Date)
    requires c.Shaped()
    ensures NoDayOvercharged(Replay(c), e) <==>
              forall rates :: Sum(LedgerPenalties(Replay(c), rates, |c.required|, e))
                == ShortfallPenalty(c, rates, 1, e)
    ensures NothingTakenBack(Replay(c)) ==> NoDayOvercharged(Replay(c), e)
  {
    var es := Replay(c);
    if NothingTakenBack(es) { NothingTakenNoDay(c, e); }
    hide *;
    if NoDayOvercharged(es, e) {
      forall rates ensures Sum(LedgerPenalties(es, rates, |c.required|, e)) == ShortfallPenalty(c, rates, 1, e) {
        TotalIsShortfallAndOvercharge(c, rates, e);
        NoOverchargeNoInterest(es, rates, e);
      }
    } else {
      var rates := SomeRatesShowIt(es, e);
      TotalIsShortfallAndOvercharge(c, rates, e);
    }
  }

  lemma SomeRatesShowIt(es: seq<Event>, e: Date) returns (rates: RateTable)
    requires !NoDayOvercharged(es, e)
    ensures OverchargePenalty(es, rates, e) != 0.0
  {
    hide *;
    var d := OverchargedDay(es, e);
    rates := OneRatedDay(d);
    InterestOfOneDay(es, d, e);
    PriceOfOneDay(d, d);
    NotZero(BookOn(es, d).Overcharge(), DayPrice(rates, d));
  }

  lemma OverchargedDay(es: seq<Event>, e: Date) returns (d: Date)
    requires !NoDayOvercharged(es, e)
    ensures d < e && BookOn(es, d).Overcharge() != 0.0
  {
    d :| d < e && BookOn(es, d).Overcharge() != 0.0;
  }

  lemma NotZero(x: real, y: real)
    requires x != 0.0 && 0.0 < y
    ensures x * y != 0.0
  {
  }
}
