/** The replay that allocates payments, carries overpayments and accrues interest (`penalty_schedule`). */
module PenaltyLedger {
  import opened Wrappers
  import opened Calendar
  import opened UnderpaymentInterest
  import opened Amounts
  import opened Estimate
  import opened PenaltyBook
  import opened PenaltyEvents

  /** One accrual leg of one installment: the unpaid balance it was charged on. */
  datatype Segment = Segment(balance: real, leg: Leg) {
    function Amount(): real
      requires leg.Proper()
    {
      balance * leg.rate * leg.days as real / leg.daysInYear as real
    }
  }

  ghost predicate AllProper(segments: seq<Segment>) {
    forall g :: g in segments ==> g.leg.Proper()
  }

  function SumAmounts(segments: seq<Segment>): real
    requires AllProper(segments)
  {
    if segments == [] then 0.0 else SumAmounts(segments[..|segments| - 1]) + segments[|segments| - 1].Amount()
  }

  function Earlier(a: Date, b: Date): Date { if a < b then a else b }

  /** The accrual date of an installment once the ledger has accrued to `d`. */
  function AccruedTo(last: Option<Date>, d: Date): Option<Date> {
    if last.Some? && last.value < d then Some(d) else last
  }

  /** Interest an installment gains when the ledger accrues to `d`. */
  function Gain(rates: RateTable, balance: real, last: Option<Date>, d: Date): real {
    if last.Some? && last.value < d then balance * Interest(rates, last.value, d) else 0.0
  }

  /** The segments of a balance over the legs, in order. */
  function Segments(balance: real, legs: seq<Leg>): seq<Segment> {
    seq(|legs|, j requires 0 <= j < |legs| => Segment(balance, legs[j]))
  }

  /** The segments an installment gains when the ledger accrues to `d`: one a leg, on the balance as it stands. */
  function Added(rates: RateTable, balance: real, last: Option<Date>, d: Date): seq<Segment> {
    if 0.0 < balance && last.Some? && last.value < d && Legs(rates, last.value, d).Ok?
    then Segments(balance, Legs(rates, last.value, d).value)
    else []
  }

  /** What accruing to `d` does to one row. */
  ghost predicate Accrued(rates: RateTable, balance: real, penalty: real, last: Option<Date>, penalty': real,
          last': Option<Date>, d: Date) {
    && penalty' == penalty + Gain(rates, balance, last, d)
    && last' == AccruedTo(last, d)
    && (0.0 < balance && last.Some? ==> RatedThrough(rates, last.value, d))
  }

  /** Day `day` has no rate and lies in the stretch from `last` to `d`. */
  ghost predicate UnratedDay(rates: RateTable, last: Option<Date>, d: Date, day: Date) {
    last.Some? && last.value < day <= d && RateOn(rates, day).None?
  }

  lemma LegsPrice(legs: seq<Leg>, rates: RateTable, s: Date, e: Date)
    requires Tile(legs, s, e) && PriceEveryDay(legs, rates, s, e)
    ensures SumFactors(legs) == Interest(rates, s, e) && RatedThrough(rates, s, e)
    ensures forall leg :: leg in legs ==> leg.Proper()
  {
  }

  lemma AmountIsFactor(balance: real, leg: Leg)
    requires leg.Proper()
    ensures Segment(balance, leg).Amount() == balance * leg.Factor()
  {
    var x, y, z := leg.rate, leg.days as real, leg.daysInYear as real;
    assert balance * x * y == balance * (x * y);
    ProductOverDivisor(balance, x * y, z);
  }

  lemma ProductOverDivisor(a: real, b: real, c: real)
    requires c != 0.0
    ensures a * b / c == a * (b / c)
  {
  }

  lemma Distribute(a: real, b: real, c: real)
    ensures a * (b + c) == a * b + a * c
  {
  }

  lemma NoLegsCharged(balance: real)
    ensures SumFactors([]) == 0.0 && Segments(balance, []) == []
  {
  }

  lemma OneMoreLeg(balance: real, legs: seq<Leg>, j: nat)
    requires j < |legs| && forall leg :: leg in legs ==> leg.Proper()
    ensures 0 < legs[j].daysInYear
    ensures Segments(balance, legs[..j + 1]) == Segments(balance, legs[..j]) + [Segment(balance, legs[j])]
    ensures var amount := balance * legs[j].rate * legs[j].days as real / legs[j].daysInYear as real;
            && Segment(balance, legs[j]).Amount() == amount
            && balance * SumFactors(legs[..j + 1]) == balance * SumFactors(legs[..j]) + amount
  {
    assert legs[..j + 1][..j] == legs[..j];
    AmountIsFactor(balance, legs[j]);
    Distribute(balance, SumFactors(legs[..j]), legs[j].Factor());
  }

  lemma AppendSegment(segments: seq<Segment>, g: Segment)
    requires AllProper(segments) && g.leg.Proper()
    ensures AllProper(segments + [g]) && SumAmounts(segments + [g]) == SumAmounts(segments) + g.Amount()
  {
    assert (segments + [g])[..|segments|] == segments;
  }

  lemma NoDaysRated(rates: RateTable, s: Date, e: Date)
    requires e <= s
    ensures RatedThrough(rates, s, e)
  {
  }

  // ---------- The rows and the book ----------

  /** The rows due so far hold the book's balances, the others nothing. */
  ghost predicate Holds(balance: seq<real>, last: seq<Option<Date>>, over: real, book: Book) {
    && |book.balance| <= |balance| == |last|
    && book.Valid() && over == book.over
    && (forall i :: 0 <= i < |book.balance| ==> balance[i] == book.balance[i] && last[i].Some?)
    && (forall i :: |book.balance| <= i < |balance| ==> balance[i] == 0.0 && last[i].None?)
  }

  /** Each row's penalty is the sum of its segments. */
  ghost predicate RowsAddUp(penalty: seq<real>, segments: seq<seq<Segment>>) {
    && |penalty| == |segments|
    && forall i :: 0 <= i < |segments| ==> AllProper(segments[i]) && penalty[i] == SumAmounts(segments[i])
  }

  /** Rows before `i` carry `date` exactly when this payment settled them, the others are as before. */
  ghost predicate DatedThrough(before: seq<real>, after: seq<real>, dates: seq<Option<Date>>, dates': seq<Option<Date>>,
          date: Date, i: nat) {
    && i <= |after| == |before| == |dates| == |dates'|
    && (forall k :: 0 <= k < i ==> dates'[k] == if after[k] == 0.0 && before[k] > 0.0 then Some(date) else dates[k])
    && (forall k :: i <= k < |after| ==> after[k] == before[k] && dates'[k] == dates[k])
  }

  /**
   * The first `i` rows have taken their part: with what the later ones would take of the rest, the balances are what
   * the whole payment leaves.
   */
  ghost predicate TakenThrough(before: seq<real>, after: seq<real>, k: nat, amount: real, i: nat, remaining: real) {
    && i <= k <= |after| == |before|
    && (forall m :: i <= m < |after| ==> after[m] == before[m])
    && Take(before[..k], amount) == (after[..i] + Take(before[i..k], remaining).0, Take(before[i..k], remaining).1)
  }

  /** Nothing more is taken: the first `k` balances are what the payment leaves, and `remaining` is left of it. */
  ghost predicate Taken(before: seq<real>, after: seq<real>, k: nat, amount: real, remaining: real) {
    && k <= |after| == |before|
    && (forall m :: k <= m < |after| ==> after[m] == before[m])
    && Take(before[..k], amount) == (after[..k], remaining)
  }

  lemma StartTaking(before: seq<real>, k: nat, amount: real)
    requires k <= |before|
    ensures TakenThrough(before, before, k, amount, 0, amount)
  {
    assert before[0..k] == before[..k] && before[..0] + Take(before[..k], amount).0 == Take(before[..k], amount).0;
  }

  /** One row takes its part; with nothing left, that was the last. */
  lemma TakeOne(before: seq<real>, after: seq<real>, k: nat, amount: real, i: nat, remaining: real)
    requires TakenThrough(before, after, k, amount, i, remaining) && i < k
    ensures var take := Min(after[i], remaining);
            var after' := after[i := after[i] - take];
            && (remaining - take > 0.0 ==> TakenThrough(before, after', k, amount, i + 1, remaining - take))
            && (remaining - take <= 0.0 ==> Taken(before, after', k, amount, remaining - take))
  {
    var take := Min(after[i], remaining);
    var after' := after[i := after[i] - take];
    assert before[i..k][0] == after[i] && before[i..k][1..] == before[i + 1..k];
    assert after'[..i + 1] == after[..i] + [after[i] - take];
    if remaining - take <= 0.0 {
      assert after'[..k] == after[..i] + ([after[i] - take] + before[i + 1..k]);
    } else {
      var later := Take(before[i + 1..k], remaining - take).0;
      assert after[..i] + ([after[i] - take] + later) == after'[..i + 1] + later;
    }
    hide Take;
  }

  lemma AllTook(before: seq<real>, after: seq<real>, k: nat, amount: real, remaining: real)
    requires TakenThrough(before, after, k, amount, k, remaining)
    ensures Taken(before, after, k, amount, remaining)
  {
    assert before[k..k] == [] && after[..k] + [] == after[..k];
  }

  /** The payment after `i` rows: still taking, or through. */
  ghost predicate Paying(before: seq<real>, after: seq<real>, dates: seq<Option<Date>>, dates': seq<Option<Date>>,
          date: Date, k: nat, amount: real, i: nat, remaining: real) {
    && DatedThrough(before, after, dates, dates', date, i)
    && NonNegative(before) && TakenThrough(before, after, k, amount, i, remaining)
  }

  ghost predicate Through(before: seq<real>, after: seq<real>, dates: seq<Option<Date>>, dates': seq<Option<Date>>,
          date: Date, k: nat, amount: real, i: nat, remaining: real) {
    && DatedThrough(before, after, dates, dates', date, i)
    && NonNegative(before) && Taken(before, after, k, amount, remaining)
  }

  lemma StartPaying(before: seq<real>, dates: seq<Option<Date>>, date: Date, k: nat, amount: real)
    requires k <= |before| == |dates| && NonNegative(before)
    ensures Paying(before, before, dates, dates, date, k, amount, 0, amount)
  {
    StartTaking(before, k, amount);
  }

  /** A row is dated exactly when its part is positive and leaves nothing. */
  lemma PayOne(before: seq<real>, after: seq<real>, dates: seq<Option<Date>>, dates': seq<Option<Date>>, date: Date,
          k: nat, amount: real, i: nat, remaining: real)
    requires Paying(before, after, dates, dates', date, k, amount, i, remaining) && i < k
    ensures var take := Min(after[i], remaining);
            var after'' := after[i := after[i] - take];
            var dates'' := if after''[i] == 0.0 && take > 0.0 then dates'[i := Some(date)] else dates';
            if remaining - take <= 0.0
            then Through(before, after'', dates, dates'', date, k, amount, i + 1, remaining - take)
            else Paying(before, after'', dates, dates'', date, k, amount, i + 1, remaining - take)
  {
    TakeOne(before, after, k, amount, i, remaining);
    hide Take;
  }

  lemma FinishPaying(before: seq<real>, after: seq<real>, dates: seq<Option<Date>>, dates': seq<Option<Date>>,
          date: Date, k: nat, amount: real, i: nat, remaining: real)
    requires Through(before, after, dates, dates', date, k, amount, i, remaining)
          || (Paying(before, after, dates, dates', date, k, amount, i, remaining) && i == k)
    ensures Taken(before, after, k, amount, remaining) && DatedThrough(before, after, dates, dates', date, |before|)
  {
    if Paying(before, after, dates, dates', date, k, amount, i, remaining) && i == k {
      AllTook(before, after, k, amount, remaining);
    }
    hide Take;
  }

  lemma PaymentHeld(balance: seq<real>, last: seq<Option<Date>>, over: real, book: Book, amount: real, after: seq<real>,
          remaining: real)
    requires Holds(balance, last, over, book) && Taken(balance, after, |book.balance|, amount, remaining)
    ensures Holds(after, last, over + remaining, WithPayment(book, amount))
  {
    var k := |book.balance|;
    assert balance[..k] == book.balance;
    ApplyMovesThePosition(book, Event(1, Pay, amount, 0));
    TakeKeepsTheSum(book.balance, amount);
    hide Take, Sum;
    assert forall i :: 0 <= i < k ==> after[..k][i] == after[i];
  }

  lemma InstallmentHeld(balance: seq<real>, last: seq<Option<Date>>, over: real, book: Book, amount: real, date: Date)
    requires Holds(balance, last, over, book) && 0.0 <= amount && |book.balance| < |balance|
    ensures var n, rest := |book.balance|, amount - over;
            Holds(balance[n := if rest < 0.0 then 0.0 else rest], last[n := Some(date)],
              if rest < 0.0 then -rest else 0.0,
              WithInstallment(book, amount))
  {
    ApplyMovesThePosition(book, Event(1, Due, amount, 0));
  }

  class Ledger {
    const rates: RateTable
    const returnDue: Date
    var balance: seq<real>
    var penalty: seq<real>
    var segments: seq<seq<Segment>>
    var last: seq<Option<Date>>
    var paidDates: seq<Option<Date>>
    var over: real
    /** The events replayed so far, as a book. */
    ghost var book: Book

    ghost predicate Valid()
      reads this
    {
      && StepsAtCuts(rates)
      && |balance| == |penalty| == |segments| == |last| == |paidDates|
      && Holds(balance, last, over, book)
      && RowsAddUp(penalty, segments)
    }

    constructor (n: nat, rates: RateTable, returnDue: Date)
      requires StepsAtCuts(rates)
      ensures Valid() && |balance| == n && this.rates == rates && this.returnDue == returnDue
      ensures book == EMPTY
      ensures forall i :: 0 <= i < n ==> penalty[i] == 0.0 && segments[i] == [] && paidDates[i].None?
    {
      this.rates, this.returnDue := rates, returnDue;
      balance, penalty := seq(n, _ => 0.0), seq(n, _ => 0.0);
      segments := seq(n, _ => []);
      last, paidDates := seq(n, _ => None), seq(n, _ => None);
      over := 0.0;
      book := EMPTY;
    }

    lemma OpenUp()
      requires Valid()
      ensures StepsAtCuts(rates) && |balance| == |penalty| == |segments| == |last| == |paidDates|
      ensures Holds(balance, last, over, book) && RowsAddUp(penalty, segments) && NonNegative(balance)
      ensures |book.balance| <= |balance| && forall i :: 0 <= i < |last| ==> (last[i].None? <==> |book.balance| <= i)
    {
    }

    lemma CloseUp()
      requires StepsAtCuts(rates) && |balance| == |penalty| == |segments| == |last| == |paidDates|
      requires Holds(balance, last, over, book) && RowsAddUp(penalty, segments)
      ensures Valid()
    {
    }

    lemma BalancesNonNegative()
      requires Valid()
      ensures forall i :: 0 <= i < |balance| ==> 0.0 <= balance[i]
      ensures NonNegative(balance)
    {
    }

    /** Adds the legs of installment `i`'s balance to its segments and its penalty. */
    method Charge(i: nat, legs: seq<Leg>)
      requires i < |balance| == |penalty| == |segments|
      requires forall leg :: leg in legs ==> leg.Proper()
      requires AllProper(segments[i]) && penalty[i] == SumAmounts(segments[i])
      modifies this`penalty, this`segments
      ensures |penalty| == |segments| == |balance|
      ensures segments[i] == old(segments[i]) + Segments(balance[i], legs)
      ensures penalty[i] == old(penalty[i]) + balance[i] * SumFactors(legs)
      ensures AllProper(segments[i]) && penalty[i] == SumAmounts(segments[i])
      ensures forall k :: 0 <= k < |balance| && k != i ==>
                segments[k] == old(segments[k]) && penalty[k] == old(penalty[k])
    {
      hide *;
      NoLegsCharged(balance[i]);
      for j := 0 to |legs|
        invariant |penalty| == |segments| == |balance|
        invariant segments[i] == old(segments[i]) + Segments(balance[i], legs[..j])
        invariant penalty[i] == old(penalty[i]) + balance[i] * SumFactors(legs[..j])
        invariant AllProper(segments[i]) && penalty[i] == SumAmounts(segments[i])
        invariant forall k :: 0 <= k < |balance| && k != i ==>
                    segments[k] == old(segments[k]) && penalty[k] == old(penalty[k])
      {
        OneMoreLeg(balance[i], legs, j);
        var g := Segment(balance[i], legs[j]);
        AppendSegment(segments[i], g);
        assert old(segments[i]) + Segments(balance[i], legs[..j]) + [g]
                 == old(segments[i]) + Segments(balance[i], legs[..j + 1]);
        segments := segments[i := segments[i] + [g]];
        penalty := penalty[i := penalty[i]
          + balance[i] * legs[j].rate * legs[j].days as real / legs[j].daysInYear as real];
      }
      assert legs[..|legs|] == legs;
    }

    /** Accrues installment `i` to `d`, or reports the first day of its legs without a rate. */
    method AccrueOne(i: nat, d: Date) returns (r: Result<(), Date>)
      requires StepsAtCuts(rates) && i < |balance| == |penalty| == |segments| == |last| && 0.0 <= balance[i]
      requires AllProper(segments[i]) && penalty[i] == SumAmounts(segments[i])
      modifies this`penalty, this`segments, this`last
      ensures |balance| == |penalty| == |segments| == |last|
      ensures r.Ok? ==> Accrued(rates, balance[i], old(penalty[i]), old(last[i]), penalty[i], last[i], d)
      ensures r.Ok? ==> segments[i] == old(segments[i]) + Added(rates, balance[i], old(last[i]), d)
      ensures AllProper(segments[i]) && penalty[i] == SumAmounts(segments[i])
      ensures forall k :: 0 <= k < |balance| && k != i ==>
                penalty[k] == old(penalty[k]) && segments[k] == old(segments[k]) && last[k] == old(last[k])
      ensures r.Err? ==> 0.0 < balance[i] && UnratedDay(rates, old(last[i]), d, r.error)
    {
      hide StepsAtCuts, Interest, SumFactors, Tile, PriceEveryDay, SumAmounts, AllProper, RateOn, RatedThrough, Legs,
        LegsTo, LegEnds;
      if balance[i] > 0.0 && last[i].Some? && d > last[i].value {
        var legs := AccrueLegs(last[i].value, d, rates);
        if legs.Err? { return Err(legs.error); }
        LegsPrice(legs.value, rates, last[i].value, d);
        Charge(i, legs.value);
      } else if last[i].Some? && d <= last[i].value {
        NoDaysRated(rates, last[i].value, d);
      }
      if last[i].Some? && d > last[i].value { last := last[i := Some(d)]; }
      return Ok(());
    }

    /** Accrues every unpaid balance to `date`, never past the return due date. */
    method AccrueTo(date: Date) returns (r: Result<(), Date>)
      requires Valid()
      modifies this`penalty, this`segments, this`last
      ensures r.Ok? ==> Valid()
      ensures r.Ok? ==> forall i :: 0 <= i < |balance| ==>
                && Accrued(rates, balance[i], old(penalty[i]), old(last[i]), penalty[i], last[i],
                     Earlier(date, returnDue))
                && segments[i] == old(segments[i]) + Added(rates, balance[i], old(last[i]), Earlier(date, returnDue))
      ensures r.Err? ==>
                exists i :: 0 <= i < |balance| && 0.0 < balance[i]
                            && UnratedDay(rates, old(last)[i], Earlier(date, returnDue), r.error)
    {
      hide StepsAtCuts, SumAmounts, AllProper, Unpaid, Sum, RatedThrough, Gain, NonNegative, Added, Earlier;
      BalancesNonNegative();
      var d := Earlier(date, returnDue);
      for i := 0 to |balance|
        invariant |penalty| == |segments| == |last| == |balance|
        invariant forall k :: i <= k < |balance| ==>
                    penalty[k] == old(penalty[k]) && last[k] == old(last[k]) && segments[k] == old(segments[k])
        invariant forall k :: 0 <= k < i ==>
                    && Accrued(rates, balance[k], old(penalty[k]), old(last[k]), penalty[k], last[k], d)
                    && segments[k] == old(segments[k]) + Added(rates, balance[k], old(last[k]), d)
        invariant forall k :: 0 <= k < |balance| ==> AllProper(segments[k]) && penalty[k] == SumAmounts(segments[k])
      {
        r := AccrueOne(i, d);
        if r.Err? { return; }
      }
      return Ok(());
    }

    /** Installment `idx` falls due: an overpayment on hand reduces it, and any rest of it stays on hand. */
    method FallDue(date: Date, amount: real, idx: nat)
      requires Valid() && idx == |book.balance| < |balance| && 0.0 <= amount
      modifies this`balance, this`over, this`last, this`paidDates, this`book
      ensures Valid() && book == WithInstallment(old(book), amount)
      ensures last == old(last)[idx := Some(date)]
      ensures paidDates == if balance[idx] == 0.0 then old(paidDates)[idx := Some(date)] else old(paidDates)
      ensures |balance| == old(|balance|)
    {
      hide *;
      OpenUp();
      InstallmentHeld(balance, last, over, book, amount, date);
      balance := balance[idx := amount - over];
      over := 0.0;
      if balance[idx] < 0.0 {
        over := -balance[idx];
        balance := balance[idx := 0.0];
      }
      assert balance == old(balance)[idx := if amount - old(over) < 0.0 then 0.0 else amount - old(over)];
      if balance[idx] == 0.0 { paidDates := paidDates[idx := Some(date)]; }
      last := last[idx := Some(date)];
      book := WithInstallment(book, amount);
      CloseUp();
    }

    /** A payment of any sign goes to the earliest balances in turn; what is left over stays on hand. */
    method Receive(date: Date, amount: real)
      requires Valid()
      modifies this`balance, this`over, this`paidDates, this`book
      ensures Valid() && book == WithPayment(old(book), amount)
      ensures |balance| == old(|balance|)
      ensures DatedThrough(old(balance), balance, old(paidDates), paidDates, date, |balance|)
    {
      hide *;
      OpenUp();
      ghost var before, dates, k := balance, paidDates, |book.balance|;
      ghost var settled := 0;
      var remaining := amount;
      StartPaying(before, dates, date, k, amount);
      for i := 0 to |balance|
        invariant |balance| == |paidDates| == |before| == |last| && i == settled <= k && book == old(book)
                    && over == old(over)
        invariant Paying(before, balance, dates, paidDates, date, k, amount, i, remaining)
      {
        if last[i].None? { break; }
        var take := Min(balance[i], remaining);
        PayOne(before, balance, dates, paidDates, date, k, amount, i, remaining);
        balance := balance[i := balance[i] - take];
        remaining := remaining - take;
        if balance[i] == 0.0 && take > 0.0 { paidDates := paidDates[i := Some(date)]; }
        settled := i + 1;
        if remaining <= 0.0 { break; }
      }
      FinishPaying(before, balance, dates, paidDates, date, k, amount, settled, remaining);
      PaymentHeld(before, last, over, book, amount, balance, remaining);
      over := over + remaining;
      book := WithPayment(book, amount);
      CloseUp();
    }
  }
}
