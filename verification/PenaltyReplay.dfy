/** The event replay step by step: what the ledger holds after `j` events, and what its rows have been charged. */
module PenaltyReplay {
  import opened Wrappers
  import opened Amounts
  import opened Calendar
  import opened UnderpaymentInterest
  import opened Estimate
  import opened PenaltyBook
  import opened PenaltyEvents
  import opened PenaltyLedger

  // ---------- The replay after `j` events ----------

  /** The date of the last event replayed. */
  function Clock(es: seq<Event>, j: nat): Date
    requires j <= |es|
  {
    if j == 0 then 1 else es[j - 1].date
  }

  /** The replay order of `c`, as `ReplayCarriesTheEstimate` and `ReplayIsOrdered` establish it. */
  ghost predicate IsReplay(c: Estimate, es: seq<Event>) {
    && c.Shaped()
    && InOrder(es) && Dues(es) == DueEvents(c.required, c.dueDates)
    && (exists e :: e in es && e.date == c.returnDue)
  }

  /** The same with no negative amount, and with the estimate's payments. */
  ghost predicate IsPlainReplay(c: Estimate, es: seq<Event>) {
    && IsReplay(c, es) && c.WellFormed() && AmountsNonNegative(es)
    && forall d: Date :: PaidIn(es, d) == PaidThrough(c, d)
  }

  lemma SortedEventsReplay(c: Estimate)
    requires c.Shaped()
    ensures |c.required| == |c.dueDates|
    ensures IsReplay(c, Replay(c)) && (c.WellFormed() ==> IsPlainReplay(c, Replay(c)))
  {
    ReplayIsOrdered(c);
    forall d: Date ensures PaidIn(Replay(c), d) == PaidThrough(c, d) {
      ReplayCarriesTheEstimate(c, d);
    }
    ReplayCarriesTheEstimate(c, 1);
    if c.WellFormed() {
      ReplayHasNoNegativeAmount(c);
    }
  }

  /** The installments due and payments received after `j` events, and the accrual dates at clock `now`. */
  ghost predicate Caught(c: Estimate, es: seq<Event>, j: nat, now: Date, required: seq<real>, paid: real,
          last: seq<Option<Date>>)
    requires j <= |es|
  {
    && |required| == |Dues(es[..j])| <= |c.required| == |c.dueDates| == |last|
    && required == c.required[..|required|]
    && paid == PaidInAll(es[..j])
    && forall i :: 0 <= i < |required| ==>
         && c.dueDates[i] <= now && last[i].Some?
         && if now <= c.returnDue then last[i].value == now else c.returnDue <= last[i].value
  }

  /** Interest on the ledger's balance of installment `i` over the days before `e`. */
  function LedgerPenalty(es: seq<Event>, rates: RateTable, i: nat, e: Date): real
    decreases e
  {
    if e == 1 then 0.0 else LedgerPenalty(es, rates, i, e - 1) + BalanceOn(es, i, e - 1) * DayPrice(rates, e - 1)
  }

  /** Interest is known for every day before `e` on which one of `n` balances is open. */
  ghost predicate RatedWhereOwed(es: seq<Event>, n: nat, rates: RateTable, e: Date) {
    forall i: nat, d: Date :: i < n && d < e && 0.0 < BalanceOn(es, i, d) ==> RateOn(rates, d + 1).Some?
  }

  /** Every row's penalty is the interest on its balance up to `e`. */
  ghost predicate Charged(es: seq<Event>, rates: RateTable, penalty: seq<real>, e: Date) {
    && RatedWhereOwed(es, |penalty|, rates, e)
    && forall i :: 0 <= i < |penalty| ==> penalty[i] == LedgerPenalty(es, rates, i, e)
  }

  // ---------- Between two events nothing changes ----------

  lemma {:induction false} DuesAreEvents(es: seq<Event>)
    ensures forall x :: x in Dues(es) ==> x in es
  {
    if es != [] {
      DuesAreEvents(es[1..]);
    }
  }

  /** An installment not due among the first `j` events is not due before event `j`. */
  lemma NotDueYet(c: Estimate, es: seq<Event>, j: nat, i: nat)
    requires |c.required| == |c.dueDates| && InOrder(es) && Dues(es) == DueEvents(c.required, c.dueDates)
    requires j < |es| && |Dues(es[..j])| <= i < |c.required|
    ensures es[j].date <= c.dueDates[i]
  {
    var k := |Dues(es[..j])|;
    var x := Event(c.dueDates[i], Due, c.required[i], i);
    assert x in es[j..] by {
      hide InOrder, NotAfter;
      assert es == es[..j] + es[j..];
      DuesConcat(es[..j], es[j..]);
      assert x == Dues(es)[i] == Dues(es[j..])[i - k];
      DuesAreEvents(es[j..]);
    }
    hide Dues, DueEvents;
    var m :| 0 <= m < |es[j..]| && es[j..][m] == x;
    if m > 0 { assert NotAfter(es[j], es[j + m]); }
  }

  lemma UnpaidOfPrefix(required: seq<real>, k: nat, i: nat, paid: real)
    requires i < k <= |required|
    ensures Unpaid(required[..k], i, paid) == Unpaid(required, i, paid)
  {
    assert required[..k][..i + 1] == required[..i + 1];
  }

  /** From the clock to the next event the book is the one after the events so far. */
  lemma BookSteady(es: seq<Event>, j: nat, d: Date)
    requires InOrder(es) && j < |es| && Clock(es, j) <= d < es[j].date
    ensures BookOn(es, d) == After(es[..j])
  {
    forall i | 0 <= i < j ensures es[i].date <= d {
      if i < j - 1 { assert NotAfter(es[i], es[j - 1]); }
    }
    UptoIs(es, j, d);
  }

  lemma {:induction false} SteadyStretch(es: seq<Event>, rates: RateTable, i: nat, s: Date, e: Date, balance: real)
    requires s <= e
    requires forall d: Date :: s <= d < e ==> BalanceOn(es, i, d) == balance
    ensures LedgerPenalty(es, rates, i, e) == LedgerPenalty(es, rates, i, s) + Cost(balance, Interest(rates, s, e))
    decreases e
  {
    hide *;
    if s < e {
      SteadyStretch(es, rates, i, s, e - 1, balance);
      assert BalanceOn(es, i, e - 1) == balance;
      OneMoreDayOfBalance(es, rates, i, s, e);
      CostAtASum(balance, Interest(rates, s, e - 1), DayPrice(rates, e - 1));
    } else {
      NoInterest(rates, s);
      CostOfNothing(balance);
    }
  }

  lemma OneMoreDayOfBalance(es: seq<Event>, rates: RateTable, i: nat, s: Date, e: Date)
    requires s < e
    ensures LedgerPenalty(es, rates, i, e)
         == LedgerPenalty(es, rates, i, e - 1) + Cost(BalanceOn(es, i, e - 1), DayPrice(rates, e - 1))
    ensures Interest(rates, s, e) == Interest(rates, s, e - 1) + DayPrice(rates, e - 1)
  {
    hide BalanceOn, DayPrice;
  }

  /** Accruing a steady balance from `s` to `e` extends the row's interest and its rated days to `e`. */
  lemma RowGains(es: seq<Event>, rates: RateTable, i: nat, s: Date, e: Date, balance: real, penalty: real,
          last: Option<Date>, penalty': real, last': Option<Date>)
    requires s <= e
    requires forall d: Date :: s <= d < e ==> BalanceOn(es, i, d) == balance
    requires forall d: Date :: d < s && 0.0 < BalanceOn(es, i, d) ==> RateOn(rates, d + 1).Some?
    requires penalty == LedgerPenalty(es, rates, i, s)
    requires last.None? ==> balance == 0.0
    requires last.Some? ==> last.value == s || (s == e && e <= last.value)
    requires Accrued(rates, balance, penalty, last, penalty', last', e)
    ensures penalty' == LedgerPenalty(es, rates, i, e)
    ensures forall d: Date :: d < e && 0.0 < BalanceOn(es, i, d) ==> RateOn(rates, d + 1).Some?
    ensures last' == if last.Some? && last.value < e then Some(e) else last
  {
    hide BalanceOn, RateOn, LedgerPenalty, Interest;
    SteadyStretch(es, rates, i, s, e, balance);
    NoInterest(rates, s);
    forall d: Date | d < e && 0.0 < BalanceOn(es, i, d) ensures RateOn(rates, d + 1).Some? {
      if s <= d {
        assert last.value < d + 1 <= e;
      }
    }
  }

  lemma NoInterest(rates: RateTable, s: Date)
    ensures Interest(rates, s, s) == 0.0
  {
  }

  lemma ClockAdvances(es: seq<Event>, j: nat)
    requires InOrder(es) && j < |es|
    ensures Clock(es, j) <= es[j].date
  {
    if j > 0 { assert NotAfter(es[j - 1], es[j]); }
  }

  /** The ledger after `j` events, at clock `now`. */
  ghost predicate InStep(c: Estimate, es: seq<Event>, j: nat, now: Date, balance: seq<real>, last: seq<Option<Date>>,
          over: real, book: Book)
    requires j <= |es|
  {
    && book == After(es[..j]) && Holds(balance, last, over, book) && |balance| == |c.required|
    && |book.balance| <= |c.required|
    && Caught(c, es, j, now, c.required[..|book.balance|], PaidInAll(es[..j]), last)
  }

  lemma OneAccrues(c: Estimate, rates: RateTable, es: seq<Event>, j: nat, balance: seq<real>, last: seq<Option<Date>>,
          over: real, book: Book, penalty: seq<real>, penalty': real, last': Option<Date>, i: nat)
    requires IsReplay(c, es) && j < |es| && InStep(c, es, j, Clock(es, j), balance, last, over, book)
    requires Charged(es, rates, penalty, Earlier(Clock(es, j), c.returnDue))
    requires i < |balance| == |penalty|
    requires Accrued(rates, balance[i], penalty[i], last[i], penalty', last', Earlier(es[j].date, c.returnDue))
    ensures var e := Earlier(es[j].date, c.returnDue);
            && penalty' == LedgerPenalty(es, rates, i, e)
            && (forall d: Date :: d < e && 0.0 < BalanceOn(es, i, d) ==> RateOn(rates, d + 1).Some?)
            && last' == if last[i].Some? && last[i].value < e then Some(e) else last[i]
  {
    ClockAdvances(es, j);
    var s, e := Earlier(Clock(es, j), c.returnDue), Earlier(es[j].date, c.returnDue);
    forall d: Date | s <= d < e ensures BalanceOn(es, i, d) == balance[i] {
      BookSteady(es, j, d);
    }
    hide InOrder, Accrued, PaidInAll, Dues, IsReplay, BalanceOn, RateOn, LedgerPenalty, After;
    RowGains(es, rates, i, s, e, balance[i], penalty[i], last[i], penalty', last');
  }

  /** What accruing all rows to the next event establishes. */
  lemma AllAccrue(c: Estimate, rates: RateTable, es: seq<Event>, j: nat, balance: seq<real>, last: seq<Option<Date>>,
          over: real, book: Book, penalty: seq<real>, penalty': seq<real>, last': seq<Option<Date>>)
    requires IsReplay(c, es) && j < |es| && InStep(c, es, j, Clock(es, j), balance, last, over, book)
    requires Charged(es, rates, penalty, Earlier(Clock(es, j), c.returnDue))
    requires |balance| == |penalty| == |penalty'| == |last'|
    requires forall i :: 0 <= i < |balance| ==>
               Accrued(rates, balance[i], penalty[i], last[i], penalty'[i], last'[i], Earlier(es[j].date, c.returnDue))
    ensures InStep(c, es, j, es[j].date, balance, last', over, book)
    ensures Charged(es, rates, penalty', Earlier(es[j].date, c.returnDue))
  {
    hide InOrder, Accrued, PaidInAll, BalanceOn, RateOn, LedgerPenalty, After, Dues, Holds;
    var e := Earlier(es[j].date, c.returnDue);
    HeldRows(balance, last, over, book);
    forall i | 0 <= i < |balance| ensures penalty'[i] == LedgerPenalty(es, rates, i, e) {
      OneAccrues(c, rates, es, j, balance, last, over, book, penalty, penalty'[i], last'[i], i);
    }
    forall i: nat, d: Date | i < |balance| && d < e && 0.0 < BalanceOn(es, i, d) ensures RateOn(rates, d + 1).Some? {
      OneAccrues(c, rates, es, j, balance, last, over, book, penalty, penalty'[i], last'[i], i);
    }
    forall i | 0 <= i < |balance| ensures last'[i] == if last[i].Some? && last[i].value < e then Some(e) else last[i] {
      OneAccrues(c, rates, es, j, balance, last, over, book, penalty, penalty'[i], last'[i], i);
    }
    hide RatedWhereOwed, IsReplay;
    OrderOfClock(c, es, j);
    StillHeld(balance, last, last', over, book);
    StillCaught(c, es, j, Clock(es, j), es[j].date, c.required[..|book.balance|], PaidInAll(es[..j]), last, last');
  }

  lemma OrderOfClock(c: Estimate, es: seq<Event>, j: nat)
    requires IsReplay(c, es) && j < |es|
    ensures Clock(es, j) <= es[j].date
  {
    ClockAdvances(es, j);
  }

  lemma HeldRows(balance: seq<real>, last: seq<Option<Date>>, over: real, book: Book)
    requires Holds(balance, last, over, book)
    ensures |last| == |balance|
  {
  }

  lemma StillHeld(balance: seq<real>, last: seq<Option<Date>>, last': seq<Option<Date>>, over: real, book: Book)
    requires Holds(balance, last, over, book) && |last'| == |last|
    requires forall i :: 0 <= i < |last| ==> last'[i].Some? == last[i].Some?
    ensures Holds(balance, last', over, book)
  {
    hide Book.Valid;
  }

  lemma StillCaught(c: Estimate, es: seq<Event>, j: nat, now: Date, now': Date, required: seq<real>, paid: real,
          last: seq<Option<Date>>, last': seq<Option<Date>>)
    requires j <= |es| && now <= now' && Caught(c, es, j, now, required, paid, last) && |last'| == |last|
    requires var e := Earlier(now', c.returnDue);
             forall i :: 0 <= i < |last| ==> last'[i] == if last[i].Some? && last[i].value < e then Some(e) else last[i]
    ensures Caught(c, es, j, now', required, paid, last')
  {
    hide Dues, PaidInAll;
  }

  // ---------- One event ----------

  lemma DueStep(c: Estimate, es: seq<Event>, j: nat, required: seq<real>, paid: real, last: seq<Option<Date>>)
    requires IsReplay(c, es) && j < |es| && es[j].kind.Due?
    requires Caught(c, es, j, es[j].date, required, paid, last)
    ensures es[j].idx == |required| < |c.required| && 0.0 <= es[j].amount && c.dueDates[|required|] == es[j].date
    ensures Clock(es, j + 1) == es[j].date
    ensures Caught(c, es, j + 1, Clock(es, j + 1), required + [es[j].amount], paid, last[es[j].idx := Some(es[j].date)])
  {
    PrefixStep(es, j);
    var k := |required|;
    assert es[j] == DueEvents(c.required, c.dueDates)[k];
    assert c.required[..k + 1] == c.required[..k] + [c.required[k]];
  }

  lemma PayStep(c: Estimate, es: seq<Event>, j: nat, required: seq<real>, paid: real, last: seq<Option<Date>>)
    requires IsReplay(c, es) && j < |es| && !es[j].kind.Due?
    requires Caught(c, es, j, es[j].date, required, paid, last)
    ensures Clock(es, j + 1) == es[j].date
    ensures Caught(c, es, j + 1, Clock(es, j + 1), required, paid + if es[j].kind.Pay? then es[j].amount else 0.0, last)
  {
    PrefixStep(es, j);
  }

  /** The book takes the event, and keeps one balance per installment due. */
  lemma BookStep(es: seq<Event>, j: nat)
    requires j < |es|
    ensures After(es[..j + 1]) == Apply(After(es[..j]), es[j])
    ensures |Apply(After(es[..j]), es[j]).balance| == |After(es[..j]).balance| + if es[j].kind.Due? then 1 else 0
  {
    assert es[..j + 1][..j] == es[..j];
    OneMoreBalance(After(es[..j]), es[j]);
  }

  lemma StepDue(c: Estimate, es: seq<Event>, j: nat, balance: seq<real>, last: seq<Option<Date>>, over: real,
          book: Book, balance': seq<real>, over': real)
    requires IsReplay(c, es) && j < |es| && es[j].kind.Due? && InStep(c, es, j, es[j].date, balance, last, over, book)
    requires |book.balance| < |c.required| && es[j].idx == |book.balance|
    requires Holds(balance', last[es[j].idx := Some(es[j].date)], over', WithInstallment(book, es[j].amount))
               && |balance'| == |balance|
    ensures InStep(c, es, j + 1, Clock(es, j + 1), balance', last[es[j].idx := Some(es[j].date)], over',
              WithInstallment(book, es[j].amount))
    ensures Clock(es, j + 1) == es[j].date
  {
    var k := |book.balance|;
    BookStep(es, j);
    DueStep(c, es, j, c.required[..k], PaidInAll(es[..j]), last);
    PrefixStep(es, j);
    assert es[j] == DueEvents(c.required, c.dueDates)[k];
    assert c.required[..k + 1] == c.required[..k] + [es[j].amount];
    hide Holds, IsReplay, After, PaidInAll, Dues;
  }

  lemma StepPay(c: Estimate, es: seq<Event>, j: nat, balance: seq<real>, last: seq<Option<Date>>, over: real,
          book: Book, balance': seq<real>, over': real, book': Book)
    requires IsReplay(c, es) && j < |es| && !es[j].kind.Due? && InStep(c, es, j, es[j].date, balance, last, over, book)
    requires book' == Apply(book, es[j]) && Holds(balance', last, over', book') && |balance'| == |balance|
    ensures InStep(c, es, j + 1, Clock(es, j + 1), balance', last, over', book') && Clock(es, j + 1) == es[j].date
  {
    BookStep(es, j);
    PayStep(c, es, j, c.required[..|book.balance|], PaidInAll(es[..j]), last);
    PrefixStep(es, j);
    hide Holds, IsReplay, After, PaidInAll, Dues, Apply;
  }

  /** The next installment to fall due is the event's. */
  lemma NextDue(c: Estimate, es: seq<Event>, j: nat, now: Date, balance: seq<real>, last: seq<Option<Date>>, over: real,
          book: Book)
    requires IsReplay(c, es) && j < |es| && es[j].kind.Due? && InStep(c, es, j, now, balance, last, over, book)
               && now == es[j].date
    ensures es[j].idx == |book.balance| < |balance| && 0.0 <= es[j].amount && c.dueDates[es[j].idx] == es[j].date
  {
    DueStep(c, es, j, c.required[..|book.balance|], PaidInAll(es[..j]), last);
  }

  // ---------- The end of the replay ----------

  /** The same for the ledger's balances. */
  ghost predicate UnpricedBalance(es: seq<Event>, n: nat, rates: RateTable, day: Date, e: Date) {
    1 < day <= e && RateOn(rates, day).None? && SomeBalanceOn(es, n, day - 1)
  }

  ghost predicate SomeBalanceOn(es: seq<Event>, n: nat, d: Date) {
    exists i: nat :: i < n && 0.0 < BalanceOn(es, i, d)
  }

  lemma ErrorsAreUnpriced(c: Estimate, rates: RateTable, es: seq<Event>, j: nat, balance: seq<real>,
          last: seq<Option<Date>>, over: real, book: Book, i: nat, day: Date)
    requires IsReplay(c, es) && j < |es| && i < |c.required|
               && InStep(c, es, j, Clock(es, j), balance, last, over, book)
    requires 0.0 < balance[i] && UnratedDay(rates, last[i], Earlier(es[j].date, c.returnDue), day)
    ensures UnpricedBalance(es, |c.required|, rates, day, c.returnDue)
  {
    BookSteady(es, j, day - 1);
    hide After, InOrder;
    assert 0.0 < BalanceOn(es, i, day - 1);
  }

  lemma ClockIsLast(es: seq<Event>, d: Date)
    requires InOrder(es) && es != [] && Clock(es, |es|) <= d
    ensures forall i :: 0 <= i < |es| ==> es[i].date <= d
  {
    forall i | 0 <= i < |es| ensures es[i].date <= d {
      if i < |es| - 1 { assert NotAfter(es[i], es[|es| - 1]); }
    }
  }

  /** The balance from day `from` on. */
  ghost predicate OwedForGood(es: seq<Event>, i: nat, from: Date, amount: real) {
    forall d: Date :: from <= d ==> BalanceOn(es, i, d) == amount
  }

  lemma OwedAtTheEnd(es: seq<Event>, i: nat, balance: real)
    requires InOrder(es) && es != []
    requires balance == if i < |After(es).balance| then After(es).balance[i] else 0.0
    ensures OwedForGood(es, i, Clock(es, |es|), balance)
  {
    forall d: Date | Clock(es, |es|) <= d ensures BalanceOn(es, i, d) == balance {
      ClockIsLast(es, d);
      UptoIs(es, |es|, d);
      assert es[..|es|] == es;
    }
  }

  // ---------- The total ----------

  function BalancesOn(es: seq<Event>, k: nat, d: Date): seq<real> {
    seq(k, i requires 0 <= i < k => BalanceOn(es, i, d))
  }

  function LedgerPenalties(es: seq<Event>, rates: RateTable, k: nat, e: Date): seq<real> {
    seq(k, i requires 0 <= i < k => LedgerPenalty(es, rates, i, e))
  }

  lemma {:induction false} OneDayOfBalances(es: seq<Event>, rates: RateTable, k: nat, e: Date)
    requires 1 < e
    ensures Sum(LedgerPenalties(es, rates, k, e))
         == Sum(LedgerPenalties(es, rates, k, e - 1)) + Cost(Sum(BalancesOn(es, k, e - 1)), DayPrice(rates, e - 1))
  {
    hide DayPrice, BalanceOn, LedgerPenalty, Cost;
    if k == 0 {
      CostOfNothing(DayPrice(rates, e - 1));
    } else {
      OneDayOfBalances(es, rates, k - 1, e);
      OneMoreDayOfBalance(es, rates, k - 1, e - 1, e);
      CostOfASum(Sum(BalancesOn(es, k - 1, e - 1)), BalanceOn(es, k - 1, e - 1), DayPrice(rates, e - 1));
      assert LedgerPenalties(es, rates, k, e)[..k - 1] == LedgerPenalties(es, rates, k - 1, e);
      assert LedgerPenalties(es, rates, k, e - 1)[..k - 1] == LedgerPenalties(es, rates, k - 1, e - 1);
      assert BalancesOn(es, k, e - 1)[..k - 1] == BalancesOn(es, k - 1, e - 1);
    }
  }

  lemma {:induction false} BalancesAreTheBooks(es: seq<Event>, k: nat, d: Date)
    ensures var b := BookOn(es, d).balance;
            Sum(BalancesOn(es, k, d)) == Sum(b[..if k <= |b| then k else |b|])
  {
    var b := BookOn(es, d).balance;
    hide BookOn;
    if k > 0 {
      BalancesAreTheBooks(es, k - 1, d);
      assert BalancesOn(es, k, d)[..k - 1] == BalancesOn(es, k - 1, d);
      if k <= |b| {
        assert b[..k][..k - 1] == b[..k - 1];
      }
    }
  }

  /** Interest on what the ledger charges beyond the shortfall. */
  function OverchargePenalty(es: seq<Event>, rates: RateTable, e: Date): real
    decreases e
  {
    if e == 1 then 0.0
    else OverchargePenalty(es, rates, e - 1) + BookOn(es, e - 1).Overcharge() * DayPrice(rates, e - 1)
  }

  /** For payments of any sign the total is the interest on the cumulative shortfall and on the overcharge. */
  lemma {:induction false} TotalIsShortfallAndOvercharge(c: Estimate, rates: RateTable, e: Date)
    requires c.Shaped()
    ensures Sum(LedgerPenalties(Replay(c), rates, |c.required|, e))
         == ShortfallPenalty(c, rates, 1, e) + OverchargePenalty(Replay(c), rates, e)
    decreases e
  {
    var es := Replay(c);
    hide *;
    if e == 1 {
      NothingOnDayOne(c, es, rates);
    } else {
      TotalIsShortfallAndOvercharge(c, rates, e - 1);
      DayOfTheTotal(c, rates, e);
      CostOfASum(ShortfallOn(c, e - 1), BookOn(es, e - 1).Overcharge(), DayPrice(rates, e - 1));
      OneMoreDayOfBoth(c, es, rates, e);
    }
  }

  lemma NothingOnDayOne(c: Estimate, es: seq<Event>, rates: RateTable)
    requires c.Shaped()
    ensures |c.required| == |c.dueDates|
    ensures Sum(LedgerPenalties(es, rates, |c.required|, 1))
         == ShortfallPenalty(c, rates, 1, 1) + OverchargePenalty(es, rates, 1)
  {
    ZeroSum(LedgerPenalties(es, rates, |c.required|, 1));
  }

  lemma DayOfTheTotal(c: Estimate, rates: RateTable, e: Date)
    requires c.Shaped() && |c.required| == |c.dueDates| && 1 < e
    ensures var es, n := Replay(c), |c.required|;
            Sum(LedgerPenalties(es, rates, n, e)) == Sum(LedgerPenalties(es, rates, n, e - 1))
              + Cost(ShortfallOn(c, e - 1) + BookOn(es, e - 1).Overcharge(), DayPrice(rates, e - 1))
  {
    hide *;
    var es, n := Replay(c), |c.required|;
    OneDayOfBalances(es, rates, n, e);
    BalancesAreTheBooks(es, n, e - 1);
    DayOfTheBook(c, e - 1);
    var b := BookOn(es, e - 1);
    assert b.balance[..|b.balance|] == b.balance;
    assert Sum(BalancesOn(es, n, e - 1)) == ShortfallOn(c, e - 1) + b.Overcharge();
  }

  lemma OneMoreDayOfBoth(c: Estimate, es: seq<Event>, rates: RateTable, e: Date)
    requires |c.required| == |c.dueDates| && 1 < e
    ensures ShortfallPenalty(c, rates, 1, e)
              == ShortfallPenalty(c, rates, 1, e - 1) + Cost(ShortfallOn(c, e - 1), DayPrice(rates, e - 1))
    ensures OverchargePenalty(es, rates, e)
         == OverchargePenalty(es, rates, e - 1) + Cost(BookOn(es, e - 1).Overcharge(), DayPrice(rates, e - 1))
  {
    hide ShortfallOn, DayPrice, BookOn, Book.Overcharge;
  }
}
