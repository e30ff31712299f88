/**
 * Without negative amounts: the ledger's balances are the unpaid parts of the installments, and the dates it reports
 * are the days on which they were settled. With amounts of any sign the dates are those of the last settling events.
 */
module SettlementDates {
  import opened Wrappers
  import opened Amounts
  import opened Calendar
  import opened UnderpaymentInterest
  import opened Estimate
  import opened PenaltyBook
  import opened PenaltyEvents
  import opened PenaltyLedger
  import opened PenaltyReplay

  // ---------- Settled and unpaid ----------

  /** Installment `i` was settled on day `p` and on no earlier day since it fell due. */
  ghost predicate SettledOn(c: Estimate, i: nat, p: Date)
    requires i < |c.required| == |c.dueDates|
  {
    && c.dueDates[i] <= p
    && UnpaidOn(c, i, p) == 0.0
    && UnpaidBetween(c, i, p)
  }

  ghost predicate UnpaidBetween(c: Estimate, i: nat, e: Date)
    requires i < |c.required| == |c.dueDates|
  {
    forall d: Date :: c.dueDates[i] <= d < e ==> 0.0 < UnpaidOn(c, i, d)
  }

  /** The settlement dates at clock `now`, for the `k` installments due so far. */
  ghost predicate Dated(c: Estimate, k: nat, now: Date, balance: seq<real>, dates: seq<Option<Date>>)
    requires |c.required| == |c.dueDates|
  {
    && k <= |c.required| == |balance| == |dates|
    && (forall i :: k <= i < |dates| ==> dates[i].None?)
    && (forall i :: 0 <= i < k ==> (dates[i].Some? <==> balance[i] == 0.0))
    && (forall i :: 0 <= i < k && dates[i].Some? ==> SettledOn(c, i, dates[i].value))
    && (forall i :: 0 <= i < k && dates[i].None? ==> UnpaidBetween(c, i, now))
  }

  // ---------- Without negative amounts the balances are the unpaid parts ----------

  lemma {:induction false} PlainBook(c: Estimate, es: seq<Event>, j: nat)
    requires IsPlainReplay(c, es) && j <= |es|
    ensures |Dues(es[..j])| <= |c.required|
    ensures Reflects(After(es[..j]), c.required[..|Dues(es[..j])|], PaidInAll(es[..j]))
  {
    hide IsPlainReplay, After, Reflects, Dues, PaidInAll;
    if j > 0 {
      PlainBook(c, es, j - 1);
      PlainEvent(c, es, j - 1);
    } else {
      PlainStart(c, es);
    }
  }

  lemma PlainStart(c: Estimate, es: seq<Event>)
    ensures Dues(es[..0]) == [] && Reflects(After(es[..0]), c.required[..0], PaidInAll(es[..0]))
  {
    assert es[..0] == [];
  }

  lemma PlainEvent(c: Estimate, es: seq<Event>, j: nat)
    requires IsPlainReplay(c, es) && j < |es| && |Dues(es[..j])| <= |c.required|
    requires Reflects(After(es[..j]), c.required[..|Dues(es[..j])|], PaidInAll(es[..j]))
    ensures |Dues(es[..j + 1])| <= |c.required|
    ensures Reflects(After(es[..j + 1]), c.required[..|Dues(es[..j + 1])|], PaidInAll(es[..j + 1]))
  {
    hide *;
    PlainAmount(c, es, j);
    NextDueOfReplay(c, es, j);
    PrefixStep(es, j);
    BookStep(es, j);
    ReflectsEvent(After(es[..j]), c.required[..|Dues(es[..j])|], PaidInAll(es[..j]), es[j]);
    assert After(es[..j + 1]) == Apply(After(es[..j]), es[j]);
    assert PaidInAll(es[..j + 1]) == PaidInAll(es[..j]) + if es[j].kind.Pay? then es[j].amount else 0.0;
    assert c.required[..|Dues(es[..j + 1])|]
        == c.required[..|Dues(es[..j])|] + if es[j].kind.Due? then [es[j].amount] else [];
  }

  /** One event that is not negative leaves the books a function of required and paid amounts. */
  lemma ReflectsEvent(b: Book, required: seq<real>, paid: real, e: Event)
    requires Reflects(b, required, paid) && 0.0 <= e.amount
    ensures Reflects(Apply(b, e), required + if e.kind.Due? then [e.amount] else [],
      paid + if e.kind.Pay? then e.amount else 0.0)
  {
    hide Reflects, WithInstallment, WithPayment;
    if e.kind.Due? {
      InstallmentReflects(b, required, paid, e.amount);
    } else if e.kind.Pay? {
      PaymentReflects(b, required, paid, e.amount);
    }
    assert required + [] == required;
  }

  /** The next installment to fall due is the estimate's next. */
  lemma NextDueOfReplay(c: Estimate, es: seq<Event>, j: nat)
    requires IsPlainReplay(c, es) && j < |es|
    ensures var k := |Dues(es[..j])|;
            |Dues(es[..j + 1])| <= |c.required|
            && (es[j].kind.Due? ==>
                  k < |c.required| && c.required[..k + 1] == c.required[..k] + [es[j].amount]
                    && c.dueDates[k] == es[j].date)
  {
    PrefixStep(es, j);
    hide Dues, InOrder;
    var k := |Dues(es[..j])|;
    if es[j].kind.Due? {
      assert es[j] == DueEvents(c.required, c.dueDates)[k];
    }
  }

  lemma PlainAmount(c: Estimate, es: seq<Event>, j: nat)
    requires IsPlainReplay(c, es) && j < |es|
    ensures 0.0 <= es[j].amount
  {
  }

  /** Installments among the first `j` events are due by the last of them. */
  lemma DueByThen(c: Estimate, es: seq<Event>, j: nat, i: nat, d: Date)
    requires IsReplay(c, es) && j <= |es| && i < |Dues(es[..j])| && forall m :: 0 <= m < j ==> es[m].date <= d
    ensures i < |c.required| && c.dueDates[i] <= d
  {
    assert es == es[..j] + es[j..];
    DuesConcat(es[..j], es[j..]);
    var x := Dues(es[..j])[i];
    assert x == Dues(es)[i];
    DuesAreEvents(es[..j]);
    assert x in es[..j];
  }

  lemma PlainBalance(c: Estimate, es: seq<Event>, i: nat, d: Date)
    requires IsPlainReplay(c, es) && i < |c.required|
    ensures BalanceOn(es, i, d) == UnpaidOn(c, i, d)
  {
    var j := UptoSplits(es, d);
    var k := |Dues(es[..j])|;
    assert es[..|es|] == es;
    PlainBook(c, es, j);
    PrefixPaid(es, j, d);
    assert PaidInAll(es[..j]) == PaidThrough(c, d);
    hide PaidInAll, Sum;
    if i < k {
      DueByThen(c, es, j, i, d);
      UnpaidOfPrefix(c.required, k, i, PaidInAll(es[..j]));
    } else if j < |es| {
      NotDueYet(c, es, j, i);
    }
  }

  lemma {:induction false} PlainPenalty(c: Estimate, es: seq<Event>, rates: RateTable, i: nat, e: Date)
    requires IsPlainReplay(c, es) && i < |c.required|
    ensures LedgerPenalty(es, rates, i, e) == InstallmentPenalty(c, rates, i, e)
    decreases e
  {
    hide DayPrice, BalanceOn, UnpaidOn;
    if 1 < e {
      PlainPenalty(c, es, rates, i, e - 1);
      PlainBalance(c, es, i, e - 1);
    }
  }

  /** The rows as functions of required and paid amounts. */
  ghost predicate RowsReflect(balance: seq<real>, last: seq<Option<Date>>, over: real, required: seq<real>,
          paid: real) {
    && |required| <= |balance| == |last|
    && NonNegative(required) && 0.0 <= paid
    && (forall i :: 0 <= i < |required| ==> balance[i] == Unpaid(required, i, paid) && last[i].Some?)
    && (forall i :: |required| <= i < |balance| ==> balance[i] == 0.0 && last[i].None?)
    && over == Max(0.0, paid - Sum(required))
  }

  lemma PlainRows(c: Estimate, es: seq<Event>, j: nat, now: Date, balance: seq<real>, last: seq<Option<Date>>,
          over: real, book: Book)
    requires IsPlainReplay(c, es) && j <= |es| && InStep(c, es, j, now, balance, last, over, book)
    ensures RowsReflect(balance, last, over, c.required[..|book.balance|], PaidInAll(es[..j]))
  {
    PlainBook(c, es, j);
    hide After, PaidInAll, Sum, Unpaid, IsReplay;
  }

  /** From the clock to the next event every installment's unpaid part is its ledger balance. */
  lemma SteadyBetweenEvents(c: Estimate, es: seq<Event>, j: nat, required: seq<real>, paid: real,
          last: seq<Option<Date>>, balance: seq<real>, over: real, i: nat, d: Date)
    requires IsPlainReplay(c, es) && j < |es| && i < |c.required|
    requires Caught(c, es, j, Clock(es, j), required, paid, last) && RowsReflect(balance, last, over, required, paid)
    requires Clock(es, j) <= d < es[j].date
    ensures UnpaidOn(c, i, d) == balance[i]
  {
    if i < |required| {
      PrefixPaid(es, j, d);
      assert PaidIn(es, d) == PaidThrough(c, d);
      UnpaidOfPrefix(c.required, |required|, i, paid);
    } else {
      NotDueYet(c, es, j, i);
    }
  }

  // ---------- Settlement dates ----------

  lemma DatesSurviveTime(c: Estimate, es: seq<Event>, j: nat, required: seq<real>, paid: real, last: seq<Option<Date>>,
          balance: seq<real>, over: real, dates: seq<Option<Date>>)
    requires IsPlainReplay(c, es) && j < |es|
    requires Caught(c, es, j, Clock(es, j), required, paid, last) && RowsReflect(balance, last, over, required, paid)
    requires Dated(c, |required|, Clock(es, j), balance, dates)
    ensures Dated(c, |required|, es[j].date, balance, dates)
  {
    forall i: nat | i < |required| && dates[i].None? ensures UnpaidBetween(c, i, es[j].date) {
      forall d: Date | c.dueDates[i] <= d < es[j].date ensures 0.0 < UnpaidOn(c, i, d) {
        if Clock(es, j) <= d {
          SteadyBetweenEvents(c, es, j, required, paid, last, balance, over, i, d);
        }
      }
    }
  }

  /** A row whose ledger balance is zero once event `j` is applied is settled on the date of that event. */
  lemma ZeroIsSettled(c: Estimate, es: seq<Event>, j: nat, required: seq<real>, paid: real, last: seq<Option<Date>>,
          balance: seq<real>, over: real, i: nat)
    requires IsPlainReplay(c, es) && 0 < j <= |es| && i < |required|
    requires Caught(c, es, j, Clock(es, j), required, paid, last) && RowsReflect(balance, last, over, required, paid)
    requires balance[i] == 0.0
    ensures UnpaidOn(c, i, Clock(es, j)) == 0.0
  {
    var d := Clock(es, j);
    forall m | 0 <= m < j ensures es[m].date <= d {
      if m < j - 1 { assert NotAfter(es[m], es[j - 1]); }
    }
    PrefixPaid(es, j, d);
    assert PaidIn(es, d) == PaidThrough(c, d);
    UnpaidOfPrefix(c.required, |required|, i, paid);
  }

  /** The dates after an event: a row that the event brought to zero carries its date, the others are as before. */
  lemma DatesAfterEvent(c: Estimate, es: seq<Event>, j: nat, k: nat, required: seq<real>, paid: real,
          last: seq<Option<Date>>, balance: seq<real>, over: real, before: seq<real>, dates: seq<Option<Date>>,
          dates': seq<Option<Date>>)
    requires IsPlainReplay(c, es) && j < |es|
    requires Caught(c, es, j + 1, Clock(es, j + 1), required, paid, last)
               && RowsReflect(balance, last, over, required, paid)
    requires k <= |required| && Dated(c, k, es[j].date, before, dates)
    requires |balance| == |dates'| == |before|
    requires forall i :: k <= i < |required| ==> c.dueDates[i] == es[j].date
    requires forall i :: 0 <= i < k && before[i] == 0.0 ==> balance[i] == 0.0
    requires forall i :: 0 <= i < |required| ==>
               dates'[i] == if balance[i] == 0.0 && (i < k ==> before[i] != 0.0) then Some(es[j].date) else dates[i]
    requires forall i :: |required| <= i < |dates'| ==> dates'[i] == dates[i]
    ensures Dated(c, |required|, es[j].date, balance, dates')
  {
    forall i: nat | i < |required| && balance[i] == 0.0 ensures UnpaidOn(c, i, es[j].date) == 0.0 {
      ZeroIsSettled(c, es, j + 1, required, paid, last, balance, over, i);
    }
  }

  lemma BalancesOfPrefix(c: Estimate, required: seq<real>, paid: real, last: seq<Option<Date>>, balance: seq<real>,
          over: real)
    requires RowsReflect(balance, last, over, required, paid) && |required| <= |c.required|
               && required == c.required[..|required|]
    ensures forall i :: 0 <= i < |required| ==> balance[i] == Unpaid(c.required, i, paid)
    ensures forall i :: 0 <= i < |balance| ==> 0.0 <= balance[i]
  {
    forall i | 0 <= i < |required| ensures balance[i] == Unpaid(c.required, i, paid) {
      UnpaidOfPrefix(c.required, |required|, i, paid);
    }
  }

  lemma DatesAfterDue(c: Estimate, es: seq<Event>, j: nat, required: seq<real>, paid: real, last: seq<Option<Date>>,
          balance: seq<real>, over: real, dates: seq<Option<Date>>, last': seq<Option<Date>>, balance': seq<real>,
          over': real, dates': seq<Option<Date>>)
    requires IsPlainReplay(c, es) && j < |es| && |required| < |c.required|
    requires Caught(c, es, j, es[j].date, required, paid, last) && RowsReflect(balance, last, over, required, paid)
    requires Caught(c, es, j + 1, Clock(es, j + 1), required + [es[j].amount], paid, last')
    requires RowsReflect(balance', last', over', required + [es[j].amount], paid)
    requires Dated(c, |required|, es[j].date, balance, dates) && c.dueDates[|required|] == es[j].date
    requires |balance'| == |balance|
    requires dates' == if balance'[|required|] == 0.0 then dates[|required| := Some(es[j].date)] else dates
    ensures Dated(c, |required| + 1, Clock(es, j + 1), balance', dates')
  {
    hide UnpaidOn, UnpaidBetween, SettledOn, Unpaid, IsPlainReplay, RowsReflect, Dues, PaidInAll;
    BalancesOfPrefix(c, required, paid, last, balance, over);
    BalancesOfPrefix(c, required + [es[j].amount], paid, last', balance', over');
    DatesAfterEvent(c, es, j, |required|, required + [es[j].amount], paid, last', balance', over', balance, dates,
      dates');
  }

  lemma DatesAfterPay(c: Estimate, es: seq<Event>, j: nat, required: seq<real>, paid: real, amount: real,
          last: seq<Option<Date>>, balance: seq<real>, over: real, dates: seq<Option<Date>>, balance': seq<real>,
          over': real, dates': seq<Option<Date>>)
    requires IsPlainReplay(c, es) && j < |es| && 0.0 <= amount
    requires Caught(c, es, j, es[j].date, required, paid, last) && RowsReflect(balance, last, over, required, paid)
    requires Caught(c, es, j + 1, Clock(es, j + 1), required, paid + amount, last)
    requires RowsReflect(balance', last, over', required, paid + amount)
    requires Dated(c, |required|, es[j].date, balance, dates)
               && DatedThrough(balance, balance', dates, dates', es[j].date, |balance|)
    ensures Dated(c, |required|, Clock(es, j + 1), balance', dates')
  {
    hide UnpaidOn, UnpaidBetween, SettledOn, IsPlainReplay, IsReplay, Sum, Dues, PaidInAll;
    BalancesOfPrefix(c, required, paid, last, balance, over);
    BalancesOfPrefix(c, required, paid + amount, last, balance', over');
    DatesAfterEvent(c, es, j, |required|, required, paid + amount, last, balance', over', balance, dates, dates');
  }

  // The same on the ledger's rows.

  lemma DatesWait(c: Estimate, es: seq<Event>, j: nat, balance: seq<real>, last: seq<Option<Date>>, over: real,
          book: Book, dates: seq<Option<Date>>)
    requires IsPlainReplay(c, es) && j < |es| && InStep(c, es, j, Clock(es, j), balance, last, over, book)
    requires Dated(c, |book.balance|, Clock(es, j), balance, dates)
    ensures Dated(c, |book.balance|, es[j].date, balance, dates)
  {
    PlainRows(c, es, j, Clock(es, j), balance, last, over, book);
    hide After, PaidInAll, Dated, Dues, IsPlainReplay;
    DatesSurviveTime(c, es, j, c.required[..|book.balance|], PaidInAll(es[..j]), last, balance, over, dates);
  }

  lemma DatesDue(c: Estimate, es: seq<Event>, j: nat, balance: seq<real>, last: seq<Option<Date>>, over: real,
          book: Book, dates: seq<Option<Date>>, balance': seq<real>, last': seq<Option<Date>>, over': real, book': Book,
          dates': seq<Option<Date>>)
    requires IsPlainReplay(c, es) && j < |es| && es[j].kind.Due?
               && InStep(c, es, j, es[j].date, balance, last, over, book)
    requires InStep(c, es, j + 1, Clock(es, j + 1), balance', last', over', book')
               && book' == WithInstallment(book, es[j].amount)
    requires Dated(c, |book.balance|, es[j].date, balance, dates)
    requires es[j].idx == |book.balance| < |c.required| && |dates'| == |dates| == |balance'| == |balance|
    requires dates' == if balance'[es[j].idx] == 0.0 then dates[es[j].idx := Some(es[j].date)] else dates
    ensures Dated(c, |book'.balance|, Clock(es, j + 1), balance', dates')
  {
    hide *;
    var k := |book.balance|;
    DuesInStep(c, es, j, es[j].date, balance, last, over, book);
    OneMoreInstallment(book, es[j].amount);
    NextDueOfReplay(c, es, j);
    PrefixStep(es, j);
    PlainRows(c, es, j, es[j].date, balance, last, over, book);
    PlainRows(c, es, j + 1, Clock(es, j + 1), balance', last', over', book');
    InStepIsCaught(c, es, j, es[j].date, balance, last, over, book);
    InStepIsCaught(c, es, j + 1, Clock(es, j + 1), balance', last', over', book');
    DatesAfterDue(c, es, j, c.required[..k], PaidInAll(es[..j]), last, balance, over, dates, last', balance', over',
      dates');
  }

  lemma DuesInStep(c: Estimate, es: seq<Event>, j: nat, now: Date, balance: seq<real>, last: seq<Option<Date>>,
          over: real, book: Book)
    requires j <= |es| && InStep(c, es, j, now, balance, last, over, book)
    ensures |Dues(es[..j])| == |book.balance|
  {
  }

  lemma OneMoreInstallment(b: Book, amount: real)
    ensures |WithInstallment(b, amount).balance| == |b.balance| + 1
  {
  }

  lemma DatesPay(c: Estimate, es: seq<Event>, j: nat, balance: seq<real>, last: seq<Option<Date>>, over: real,
          book: Book, dates: seq<Option<Date>>, balance': seq<real>, over': real, book': Book,
          dates': seq<Option<Date>>)
    requires IsPlainReplay(c, es) && j < |es| && es[j].kind.Pay?
               && InStep(c, es, j, es[j].date, balance, last, over, book)
    requires InStep(c, es, j + 1, Clock(es, j + 1), balance', last, over', book')
               && book' == WithPayment(book, es[j].amount)
    requires Dated(c, |book.balance|, es[j].date, balance, dates)
    requires |balance'| == |balance| && DatedThrough(balance, balance', dates, dates', es[j].date, |balance|)
    ensures Dated(c, |book'.balance|, Clock(es, j + 1), balance', dates')
  {
    hide *;
    var k := |book.balance|;
    PlainAmount(c, es, j);
    TakeKeepsTheSum(book.balance, es[j].amount);
    SameCount(book, es[j].amount);
    PlainRows(c, es, j, es[j].date, balance, last, over, book);
    PlainRows(c, es, j + 1, Clock(es, j + 1), balance', last, over', book');
    InStepIsCaught(c, es, j, es[j].date, balance, last, over, book);
    InStepIsCaught(c, es, j + 1, Clock(es, j + 1), balance', last, over', book');
    PrefixStep(es, j);
    DatesAfterPay(c, es, j, c.required[..k], PaidInAll(es[..j]), es[j].amount, last, balance, over, dates, balance',
      over', dates');
  }

  lemma SameCount(b: Book, amount: real)
    ensures |WithPayment(b, amount).balance| == |b.balance|
  {
    TakeKeepsTheSum(b.balance, amount);
  }

  lemma InStepIsCaught(c: Estimate, es: seq<Event>, j: nat, now: Date, balance: seq<real>, last: seq<Option<Date>>,
          over: real, book: Book)
    requires j <= |es| && InStep(c, es, j, now, balance, last, over, book)
    ensures |book.balance| <= |c.required|
              && Caught(c, es, j, now, c.required[..|book.balance|], PaidInAll(es[..j]), last)
  {
  }

  lemma DatesEnd(c: Estimate, es: seq<Event>, j: nat, book: Book, balance: seq<real>, dates: seq<Option<Date>>)
    requires |c.required| == |c.dueDates| && j < |es| && Dated(c, |book.balance|, es[j].date, balance, dates)
    ensures Dated(c, |book.balance|, Clock(es, j + 1), balance, dates)
  {
  }

  // ---------- After the replay ----------

  /** Day `day` has no rate although an installment is unpaid over the day before it, before the return is due. */
  ghost predicate Unpriced(c: Estimate, rates: RateTable, day: Date)
    requires |c.required| == |c.dueDates|
  {
    && 1 < day <= c.returnDue
    && RateOn(rates, day).None?
    && SomeUnpaidOn(c, day - 1)
  }

  ghost predicate SomeUnpaidOn(c: Estimate, d: Date)
    requires |c.required| == |c.dueDates|
  {
    exists i: nat :: i < |c.required| && 0.0 < UnpaidOn(c, i, d)
  }

  /** After the whole replay the ledger balance is the unpaid part for good. */
  lemma FinalBalances(c: Estimate, es: seq<Event>, required: seq<real>, paid: real, last: seq<Option<Date>>,
          balance: seq<real>, over: real, d: Date)
    requires IsPlainReplay(c, es)
    requires Caught(c, es, |es|, Clock(es, |es|), required, paid, last)
               && RowsReflect(balance, last, over, required, paid)
    requires Clock(es, |es|) <= d
    ensures required == c.required && c.returnDue <= Clock(es, |es|)
    ensures forall i: nat :: i < |balance| ==> UnpaidOn(c, i, d) == balance[i] && c.dueDates[i] <= Clock(es, |es|)
  {
    assert es[..|es|] == es;
    ClockIsLast(es, Clock(es, |es|));
    ClockIsLast(es, d);
    PrefixPaid(es, |es|, d);
    assert PaidIn(es, d) == PaidThrough(c, d);
  }

  /** The date a row reports as paid in full: the first day since it fell due with nothing unpaid, or never. */
  ghost predicate Settled(c: Estimate, i: nat, paidInFullOn: Option<Date>)
    requires i < |c.required| == |c.dueDates|
  {
    match paidInFullOn
    case Some(p) => SettledOn(c, i, p)
    case None => forall d: Date :: c.dueDates[i] <= d ==> 0.0 < UnpaidOn(c, i, d)
  }

  lemma FinalDates(c: Estimate, es: seq<Event>, required: seq<real>, paid: real, last: seq<Option<Date>>,
          balance: seq<real>, over: real, dates: seq<Option<Date>>)
    requires IsPlainReplay(c, es)
    requires Caught(c, es, |es|, Clock(es, |es|), required, paid, last)
               && RowsReflect(balance, last, over, required, paid)
    requires Dated(c, |required|, Clock(es, |es|), balance, dates)
    ensures |dates| == |c.required| && forall i: nat :: i < |dates| ==> Settled(c, i, dates[i])
  {
    FinalBalances(c, es, required, paid, last, balance, over, Clock(es, |es|));
    BalancesOfPrefix(c, required, paid, last, balance, over);
    forall i: nat, d: Date | i < |dates| && dates[i].None? && c.dueDates[i] <= d ensures 0.0 < UnpaidOn(c, i, d) {
      if Clock(es, |es|) <= d {
        FinalBalances(c, es, required, paid, last, balance, over, d);
      }
    }
  }

  // ---------- For payments of any sign ----------

  /** Event `j` leaves nothing of installment `i`, which was open before it or falls due with it. */
  ghost predicate Settles(es: seq<Event>, j: nat, i: nat)
    requires j < |es|
  {
    var before, after := After(es[..j]).balance, After(es[..j + 1]).balance;
    i < |after| && after[i] == 0.0 && (i < |before| ==> 0.0 < before[i])
  }

  /** The date of the last of the first `n` events that settles the installment, if one does. */
  ghost predicate LastSettled(es: seq<Event>, n: nat, i: nat, date: Option<Date>)
    requires n <= |es|
  {
    if date.None? then forall j :: 0 <= j < n ==> !Settles(es, j, i)
    else exists j :: 0 <= j < n && Settles(es, j, i) && es[j].date == date.value
                     && forall k :: j < k < n ==> !Settles(es, k, i)
  }

  /** Every row carries its date. */
  ghost predicate AllLastSettled(es: seq<Event>, n: nat, dates: seq<Option<Date>>)
    requires n <= |es|
  {
    forall i :: 0 <= i < |dates| ==> LastSettled(es, n, i, dates[i])
  }

  lemma NothingSettled(es: seq<Event>, dates: seq<Option<Date>>)
    requires forall i :: 0 <= i < |dates| ==> dates[i].None?
    ensures AllLastSettled(es, 0, dates)
  {
  }

  /** The dates follow the events: a row gets the date of each event that settles it. */
  lemma DatesFollow(es: seq<Event>, n: nat, dates: seq<Option<Date>>, dates': seq<Option<Date>>)
    requires n < |es| && AllLastSettled(es, n, dates) && |dates'| == |dates|
    requires forall i :: 0 <= i < |dates| ==> dates'[i] == if Settles(es, n, i) then Some(es[n].date) else dates[i]
    ensures AllLastSettled(es, n + 1, dates')
  {
    hide Settles;
    forall i | 0 <= i < |dates| ensures LastSettled(es, n + 1, i, dates'[i]) {
      assert LastSettled(es, n, i, dates[i]);
    }
  }

  lemma LastDatesDue(c: Estimate, es: seq<Event>, j: nat, balance: seq<real>, last: seq<Option<Date>>, over: real,
          book: Book, dates: seq<Option<Date>>, balance': seq<real>, last': seq<Option<Date>>, over': real, book': Book,
          dates': seq<Option<Date>>)
    requires j < |es| && InStep(c, es, j, es[j].date, balance, last, over, book)
    requires InStep(c, es, j + 1, Clock(es, j + 1), balance', last', over', book')
               && book' == WithInstallment(book, es[j].amount)
    requires AllLastSettled(es, j, dates)
    requires es[j].idx == |book.balance| < |balance| && |dates'| == |dates| == |balance'| == |balance|
    requires dates' == if balance'[es[j].idx] == 0.0 then dates[es[j].idx := Some(es[j].date)] else dates
    ensures AllLastSettled(es, j + 1, dates')
  {
    hide After, Caught, AllLastSettled, Book.Valid;
    DatesFollow(es, j, dates, dates');
  }

  lemma LastDatesPay(c: Estimate, es: seq<Event>, j: nat, balance: seq<real>, last: seq<Option<Date>>, over: real,
          book: Book, dates: seq<Option<Date>>, balance': seq<real>, over': real, book': Book,
          dates': seq<Option<Date>>)
    requires j < |es| && InStep(c, es, j, es[j].date, balance, last, over, book)
    requires InStep(c, es, j + 1, Clock(es, j + 1), balance', last, over', book')
               && book' == WithPayment(book, es[j].amount)
    requires AllLastSettled(es, j, dates) && |balance'| == |balance|
    requires DatedThrough(balance, balance', dates, dates', es[j].date, |balance|)
    ensures AllLastSettled(es, j + 1, dates')
  {
    hide After, Caught, AllLastSettled, Book.Valid, Take;
    TakeKeepsTheSum(book.balance, es[j].amount);
    DatesFollow(es, j, dates, dates');
  }

  lemma LastDatesEnd(c: Estimate, es: seq<Event>, j: nat, balance: seq<real>, last: seq<Option<Date>>, over: real,
          book: Book, dates: seq<Option<Date>>)
    requires j < |es| && InStep(c, es, j, es[j].date, balance, last, over, book)
    requires InStep(c, es, j + 1, Clock(es, j + 1), balance, last, over, book)
    requires AllLastSettled(es, j, dates)
    ensures AllLastSettled(es, j + 1, dates)
  {
    hide After, Caught, AllLastSettled, Holds;
    DatesFollow(es, j, dates, dates);
  }
}
