/** The safe-harbor schedule: what each voucher still needs, with shortfalls and overpayments carried to the next. */
module VoucherSchedule {
  import opened Amounts
  import opened Calendar
  import opened Estimate
  import opened PenaltyBook
  import opened PenaltyEvents
  import opened PenaltyLedger
  import opened PenaltyReplay
  import opened UnderpaymentInterest

  /** What an installment needs from an estimate, and how far its payment falls short of it or exceeds it. */
  datatype Voucher = Voucher(need: real, short: real, over: real)

  /** What the first `i` payments and withholdings leave over, negative when they fall short. */
  function Carry(required: seq<real>, withholding: real, pays: seq<real>, i: nat): real
    requires i <= |required| && i <= |pays|
  {
    if i == 0 then 0.0 else Carry(required, withholding, pays, i - 1) + pays[i - 1] + withholding - required[i - 1]
  }

  /** Voucher `i`: only those before the last have been paid. */
  ghost predicate VoucherOk(v: Voucher, required: seq<real>, withholding: real, pays: seq<real>, i: nat)
    requires i < |required| == |pays| + 1
  {
    && v.need == required[i] - withholding - Carry(required, withholding, pays, i)
    && v.short == (if i < |pays| then Max(0.0, -Carry(required, withholding, pays, i + 1)) else 0.0)
    && v.over == (if i < |pays| then Max(0.0, Carry(required, withholding, pays, i + 1)) else 0.0)
  }

  /** The loop over the installments; the last voucher is what the payments leave to pay. */
  method Vouchers(required: seq<real>, withholding: real, pays: seq<real>) returns (vouchers: seq<Voucher>)
    requires |pays| + 1 == |required|
    ensures |vouchers| == |required|
    ensures forall i :: 0 <= i < |vouchers| ==> VoucherOk(vouchers[i], required, withholding, pays, i)
  {
    hide VoucherOk, Carry;
    vouchers := [];
    var carry := 0.0;
    NothingCarried(required, withholding, pays);
    for i := 0 to |required|
      invariant |vouchers| == i && (i <= |pays| ==> carry == Carry(required, withholding, pays, i))
      invariant forall j :: 0 <= j < i ==> VoucherOk(vouchers[j], required, withholding, pays, j)
    {
      var need := required[i] - withholding - carry;
      var paid := if i < |pays| then pays[i] else 0.0;
      var diff := paid - need;
      var voucher := Voucher(need,
        if diff < 0.0 && i < |pays| then -diff else 0.0,
        if diff > 0.0 && i < |pays| then diff else 0.0);
      NextVoucher(required, withholding, pays, i, voucher);
      vouchers := vouchers + [voucher];
      carry := if i < |pays| then diff else 0.0;
    }
  }

  lemma NothingCarried(required: seq<real>, withholding: real, pays: seq<real>)
    ensures Carry(required, withholding, pays, 0) == 0.0
  {
  }

  lemma NextVoucher(required: seq<real>, withholding: real, pays: seq<real>, i: nat, v: Voucher)
    requires i < |required| == |pays| + 1
    requires v.need == required[i] - withholding - Carry(required, withholding, pays, i)
    requires var diff := (if i < |pays| then pays[i] else 0.0) - v.need;
             && v.short == (if diff < 0.0 && i < |pays| then -diff else 0.0)
             && v.over == (if diff > 0.0 && i < |pays| then diff else 0.0)
    ensures VoucherOk(v, required, withholding, pays, i)
    ensures i < |pays| ==> Carry(required, withholding, pays, i + 1) == pays[i] - v.need
  {
  }

  /** Each amount paid on its due date. */
  function PaidOnDueDates(dueDates: seq<Date>, pays: seq<real>): seq<Payment>
    requires |pays| == |dueDates|
  {
    seq(|pays|, i requires 0 <= i < |pays| => Payment(dueDates[i], pays[i]))
  }

  ghost predicate Ascend(dueDates: seq<Date>) {
    forall i, j :: 0 <= i < j < |dueDates| ==> dueDates[i] < dueDates[j]
  }

  lemma {:induction false} WithheldSnoc(dueDates: seq<Date>, due: Date, withholding: real, d: Date)
    ensures WithheldThrough(dueDates + [due], withholding, d) ==
      WithheldThrough(dueDates, withholding, d) + if due <= d then withholding else 0.0
  {
    if dueDates == [] {
      assert [due][1..] == [] && [] + [due] == [due];
    } else {
      WithheldSnoc(dueDates[1..], due, withholding, d);
      assert (dueDates + [due])[1..] == dueDates[1..] + [due];
    }
  }

  lemma {:induction false} EstimatedSnoc(payments: seq<Payment>, p: Payment, d: Date)
    ensures EstimatedThrough(payments + [p], d) == EstimatedThrough(payments, d) + if p.date <= d then p.amount else 0.0
  {
    if payments == [] {
      assert [p][1..] == [] && [] + [p] == [p];
    } else {
      EstimatedSnoc(payments[1..], p, d);
      assert (payments + [p])[1..] == payments[1..] + [p];
    }
  }

  /** The last installment due by day `d`. */
  ghost predicate LastDue(dueDates: seq<Date>, i: nat, d: Date) {
    i < |dueDates| && dueDates[i] <= d && (i + 1 < |dueDates| ==> d < dueDates[i + 1])
  }

  /** While installment `i` is the last one due, the first `k` installments stand at the carry of those due. */
  lemma {:induction false} StandsAtTheCarry(required: seq<real>, dueDates: seq<Date>, withholding: real,
          pays: seq<real>, k: nat, i: nat, d: Date)
    requires k <= |required| == |dueDates| == |pays| && Ascend(dueDates) && LastDue(dueDates, i, d)
    ensures WithheldThrough(dueDates[..k], withholding, d) + EstimatedThrough(PaidOnDueDates(dueDates, pays)[..k], d)
              - RequiredThrough(required[..k], dueDates[..k], d)
         == Carry(required, withholding, pays, if k <= i then k else i + 1)
  {
    if k > 0 {
      var payments := PaidOnDueDates(dueDates, pays);
      StandsAtTheCarry(required, dueDates, withholding, pays, k - 1, i, d);
      assert dueDates[..k] == dueDates[..k - 1] + [dueDates[k - 1]]
               && payments[..k] == payments[..k - 1] + [payments[k - 1]];
      WithheldSnoc(dueDates[..k - 1], dueDates[k - 1], withholding, d);
      EstimatedSnoc(payments[..k - 1], payments[k - 1], d);
      RequiredSnoc(required, dueDates, k, d);
      assert dueDates[k - 1] <= d <==> k - 1 <= i;
      hide WithheldThrough, EstimatedThrough, RequiredThrough;
    }
  }

  lemma RequiredSnoc(required: seq<real>, dueDates: seq<Date>, k: nat, d: Date)
    requires 0 < k <= |required| == |dueDates|
    ensures RequiredThrough(required[..k], dueDates[..k], d) ==
      RequiredThrough(required[..k - 1], dueDates[..k - 1], d) + if dueDates[k - 1] <= d then required[k - 1] else 0.0
  {
    assert required[..k][..k - 1] == required[..k - 1] && dueDates[..k][..k - 1] == dueDates[..k - 1];
  }

  /**
   * With each payment made on its due date, the shortfall on every day is the schedule's for the last installment due
   * by then.
   */
  lemma ShortfallIsTheSchedules(c: Estimate, pays: seq<real>, i: nat, d: Date)
    requires |c.required| == |c.dueDates| == |pays| && Ascend(c.dueDates) && LastDue(c.dueDates, i, d)
    requires c.payments == PaidOnDueDates(c.dueDates, pays)
    ensures PaidThrough(c, d) - RequiredThrough(c.required, c.dueDates, d)
              == Carry(c.required, c.withholding, pays, i + 1)
    ensures ShortfallOn(c, d) == Max(0.0, -Carry(c.required, c.withholding, pays, i + 1))
  {
    var n := |pays|;
    StandsAtTheCarry(c.required, c.dueDates, c.withholding, pays, n, i, d);
    assert c.dueDates[..n] == c.dueDates && c.payments[..n] == c.payments && c.required[..n] == c.required;
    hide WithheldThrough, EstimatedThrough, RequiredThrough;
  }

  lemma LastIsLast(dueDates: seq<Date>, d: Date)
    requires dueDates != [] && dueDates[|dueDates| - 1] <= d
    ensures LastDue(dueDates, |dueDates| - 1, d)
  {
  }

  // ---------- The last payment is replayed last ----------

  lemma {:induction false} InsertBefore(e: Event, before: seq<Event>, x: Event, after: seq<Event>)
    requires NotAfter(e, x)
    ensures Insert(e, before + [x] + after) == Insert(e, before) + [x] + after
  {
    if before == [] {
      assert [] + [x] + after == [x] + after && Insert(e, []) == [e];
      assert [e] + ([x] + after) == [e] + [x] + after;
    } else {
      InsertBefore(e, before[1..], x, after);
      assert (before + [x] + after)[1..] == before[1..] + [x] + after;
      assert [before[0]] + (Insert(e, before[1..]) + [x] + after) == [before[0]] + Insert(e, before[1..]) + [x] + after;
      assert [e] + (before + [x] + after) == [e] + before + [x] + after;
    }
  }

  /** Events that do not come after `x` are sorted in front of it. */
  lemma {:induction false} SortBefore(es: seq<Event>, rest: seq<Event>, before: seq<Event>, x: Event, after: seq<Event>)
      returns (all: seq<Event>)
    requires SortEvents(rest) == before + [x] + after && forall e :: e in es ==> NotAfter(e, x)
    ensures SortEvents(es + rest) == all + [x] + after && multiset(all) == multiset(es) + multiset(before)
  {
    if es == [] {
      assert es + rest == rest;
      all := before;
    } else {
      var sorted := SortBefore(es[1..], rest, before, x, after);
      assert (es + rest)[1..] == es[1..] + rest && es == [es[0]] + es[1..];
      InsertBefore(es[0], sorted, x, after);
      InsertPermutes(es[0], sorted);
      all := Insert(es[0], sorted);
    }
  }

  lemma {:induction false} InstallmentsNotAfter(required: seq<real>, dueDates: seq<Date>, withholding: real, i: nat,
          x: Event)
    requires |required| == |dueDates| && i <= |required| && x.kind.Pay?
    requires forall k :: 0 <= k < |dueDates| ==> dueDates[k] <= x.date
    ensures forall e :: e in InstallmentEvents(required, dueDates, withholding, i) ==> NotAfter(e, x)
    decreases |required| - i
  {
    if i < |required| {
      InstallmentsNotAfter(required, dueDates, withholding, i + 1, x);
    }
  }

  lemma {:induction false} PaymentsNotAfter(payments: seq<Payment>, x: Event)
    requires x.kind.Pay? && forall k :: 0 <= k < |payments| ==> payments[k].date <= x.date
    ensures forall e :: e in PaymentEvents(payments) ==> NotAfter(e, x)
  {
    if payments != [] {
      PaymentsNotAfter(payments[1..], x);
    }
  }

  lemma {:induction false} PaymentEventsSnoc(payments: seq<Payment>, p: Payment)
    ensures PaymentEvents(payments + [p]) == PaymentEvents(payments) + [Event(p.date, Pay, p.amount, -1)]
  {
    if payments == [] {
      assert [] + [p] == [p] && [p][1..] == [];
      assert PaymentEvents([]) == [];
    } else {
      PaymentEventsSnoc(payments[1..], p);
      assert (payments + [p])[1..] == payments[1..] + [p];
    }
  }

  /** Everything but the last payment and the end of the year: no negative amount among it. */
  function EarlierEvents(c: Estimate): seq<Event>
    requires |c.required| == |c.dueDates| && c.payments != []
  {
    InstallmentEvents(c.required, c.dueDates, c.withholding, 0) + PaymentEvents(c.payments[..|c.payments| - 1])
  }

  function LastPayment(c: Estimate): Event
    requires c.payments != []
  {
    var p := c.payments[|c.payments| - 1];
    Event(p.date, Pay, p.amount, -1)
  }

  function EndOf(c: Estimate): Event {
    Event(c.returnDue, End, 0.0, -1)
  }

  /** The payments are on their due dates, and none but the last is negative. */
  ghost predicate Vouched(c: Estimate, pays: seq<real>) {
    && c.Shaped() && 0.0 <= c.withholding && Ascend(c.dueDates)
    && 0 < |pays| == |c.required| && c.payments == PaidOnDueDates(c.dueDates, pays)
    && NonNegative(pays[..|pays| - 1])
  }

  lemma EarlierAreEarlier(c: Estimate, pays: seq<real>)
    requires Vouched(c, pays)
    ensures EventsOf(c) == EarlierEvents(c) + [LastPayment(c), EndOf(c)]
    ensures forall e :: e in EarlierEvents(c) ==> NotAfter(e, LastPayment(c))
    ensures AmountsNonNegative(EarlierEvents(c)) && LastPayment(c).date == c.dueDates[|pays| - 1]
  {
    var n, x := |c.payments| - 1, LastPayment(c);
    assert c.payments == c.payments[..n] + [c.payments[n]];
    PaymentEventsSnoc(c.payments[..n], c.payments[n]);
    InstallmentsNotAfter(c.required, c.dueDates, c.withholding, 0, x);
    PaymentsNotAfter(c.payments[..n], x);
    InstallmentAmounts(c.required, c.dueDates, c.withholding, 0);
    forall i | 0 <= i < n ensures 0.0 <= c.payments[..n][i].amount {
      assert c.payments[..n][i].amount == pays[..n][i];
    }
    PaymentAmounts(c.payments[..n]);
    hide InstallmentEvents, PaymentEvents, NotAfter;
    assert EventsOf(c) == EarlierEvents(c) + [x, EndOf(c)];
  }

  /** The replay is the earlier events, the last payment and perhaps the end of the year. */
  lemma LastPaymentIsLast(c: Estimate, pays: seq<real>) returns (before: seq<Event>, after: seq<Event>)
    requires Vouched(c, pays)
    ensures Replay(c) == before + [LastPayment(c)] + after && AmountsNonNegative(before)
    ensures after == [] || after == [EndOf(c)]
    ensures forall e :: e in before ==> e.date <= LastPayment(c).date
  {
    var x, end, earlier := LastPayment(c), EndOf(c), EarlierEvents(c);
    EarlierAreEarlier(c, pays);
    var start := if NotAfter(x, end) then [] else [end];
    after := if NotAfter(x, end) then [end] else [];
    SortTwo(x, end);
    before := SortBefore(earlier, [x, end], start, x, after);
    forall e | e in before ensures 0.0 <= e.amount && e.date <= x.date {
      assert e in multiset(before);
      assert e in earlier || e in start;
    }
    hide SortEvents, EarlierEvents;
  }

  lemma SortTwo(x: Event, end: Event)
    ensures SortEvents([x, end]) == if NotAfter(x, end) then [] + [x] + [end] else [end] + [x] + []
  {
    assert [x, end][1..] == [end] && [end][1..] == [];
    assert SortEvents([end]) == [end];
    assert Insert(x, []) == [x];
  }

  // ---------- What the ledger charges ----------

  /**
   * From the last due date on the ledger's balances exceed the shortfall by what the last payment takes back of an
   * overpayment on hand; before it they are the shortfall.
   */
  lemma OverchargeOfTheLast(c: Estimate, pays: seq<real>, d: Date)
    requires Vouched(c, pays)
    ensures var n := |pays| - 1;
            var need := c.required[n] - c.withholding - Carry(c.required, c.withholding, pays, n);
            BookOn(Replay(c), d).Overcharge() == if d < c.dueDates[n] then 0.0 else Max(0.0, Min(-need, -pays[n]))
  {
    hide *;
    Unpack(c, pays);
    EarlierAreEarlier(c, pays);
    if d < c.dueDates[|pays| - 1] {
      NothingBeforeTheLast(c, pays, d);
    } else {
      var before := BookFromTheLastOn(c, pays, d);
      LastIsLast(c.dueDates, d);
      ShortfallIsTheSchedules(c, pays, |pays| - 1, d);
      DayOfTheBook(c, d);
      LastTakesBack(before, pays[|pays| - 1], BookOn(Replay(c), d));
      NeedOfTheLast(c, pays);
    }
  }

  lemma NeedOfTheLast(c: Estimate, pays: seq<real>)
    requires 0 < |pays| == |c.required|
    ensures var n := |pays| - 1;
            Carry(c.required, c.withholding, pays, n + 1) - pays[n]
              == -(c.required[n] - c.withholding - Carry(c.required, c.withholding, pays, n))
  {
  }

  lemma NothingBeforeTheLast(c: Estimate, pays: seq<real>, d: Date)
    requires Vouched(c, pays) && d < c.dueDates[|pays| - 1]
    ensures BookOn(Replay(c), d).Overcharge() == 0.0
  {
    var before, after := LastPaymentIsLast(c, pays);
    EarlierAreEarlier(c, pays);
    ReplayIsOrdered(c);
    hide Replay, LastPayment, EventsOf, EarlierEvents, Book.Overcharge, After, InOrder;
    var j := UptoSplits(Replay(c), d);
    assert Replay(c)[|before|] == LastPayment(c);
    assert j <= |before|;
    assert Replay(c)[..j] == before[..j];
    PlainEventsNeverOvercharge(before[..j]);
  }

  /** From the last due date on, the book is that of the earlier events with the last payment. */
  lemma BookFromTheLastOn(c: Estimate, pays: seq<real>, d: Date) returns (b: Book)
    requires Vouched(c, pays) && c.dueDates[|pays| - 1] <= d
    ensures b.Valid() && 0.0 <= b.over && b.Overcharge() == 0.0 && b.balance != []
    ensures BookOn(Replay(c), d) == WithPayment(b, pays[|pays| - 1])
  {
    var before, after := LastPaymentIsLast(c, pays);
    EarlierAreEarlier(c, pays);
    ReplayIsOrdered(c);
    assert LastPayment(c).amount == pays[|pays| - 1];
    hide Replay, LastPayment, EventsOf, EarlierEvents, Book.Overcharge, After, InOrder, WithPayment, BookOn;
    var j := UptoSplits(Replay(c), d);
    assert Replay(c)[|before|] == LastPayment(c);
    assert |before| < j;
    BooksAfterLast(c, pays, before, after, j, d);
    b := After(before);
  }

  lemma BooksAfterLast(c: Estimate, pays: seq<real>, before: seq<Event>, after: seq<Event>, j: nat, d: Date)
    requires Vouched(c, pays) && Replay(c) == before + [LastPayment(c)] + after && (after == [] || after == [EndOf(c)])
    requires |before| < j <= |Replay(c)| && Upto(Replay(c), d) == Replay(c)[..j] && AmountsNonNegative(before)
    ensures After(before).Valid() && 0.0 <= After(before).over && After(before).Overcharge() == 0.0
    ensures BookOn(Replay(c), d) == WithPayment(After(before), LastPayment(c).amount) && After(before).balance != []
  {
    var x, es := LastPayment(c), Replay(c);
    PlainEventsNeverOvercharge(before);
    assert (before + [x])[..|before|] == before;
    assert After(before + [x]) == Apply(After(before), x);
    if j == |before| + 1 {
      assert es[..j] == before + [x];
    } else {
      assert es[..j] == before + [x] + [EndOf(c)];
      assert (before + [x] + [EndOf(c)])[..j - 1] == before + [x];
    }
    ReplayCarriesTheEstimate(c, 1);
    DuesConcat(before + [x], after);
    DuesConcat(before, [x]);
    assert [x][1..] == [] && Dues([x]) == [] && Dues(after) == [];
    assert |Dues(before)| == |c.required|;
    BalanceCount(before);
  }

  lemma LastTakesBack(b: Book, amount: real, next: Book)
    requires b.Valid() && 0.0 <= b.over && b.Overcharge() == 0.0 && b.balance != [] && next == WithPayment(b, amount)
    ensures next.Overcharge() == Max(0.0, Min(next.Position() - amount, -amount))
  {
    ApplyMovesThePosition(b, Event(1, Pay, amount, 0));
    SumNonNegative(b.balance);
    if amount < 0.0 {
      NegativePayment(b, amount);
    } else {
      PlainEventKeeps(b, Event(1, Pay, amount, 0));
    }
  }

  /**
   * When the last voucher's need is paid on its due date, what stays on the books from then on is what the earlier
   * payments exceed it by: nothing if and only if the need is not negative. There is no shortfall in either case.
   */
  lemma LastVoucherSettles(c: Estimate, pays: seq<real>, d: Date)
    requires Vouched(c, pays) && c.dueDates[|pays| - 1] <= d
    requires var n := |pays| - 1;
             pays[n] == c.required[n] - c.withholding - Carry(c.required, c.withholding, pays, n)
    ensures ShortfallOn(c, d) == 0.0
    ensures Sum(BookOn(Replay(c), d).balance) == Max(0.0, -pays[|pays| - 1])
    ensures Sum(BookOn(Replay(c), d).balance) == 0.0 <==> 0.0 <= pays[|pays| - 1]
  {
    hide *;
    var n := |pays| - 1;
    Unpack(c, pays);
    FullyPaid(c.required, c.withholding, pays);
    LastIsLast(c.dueDates, d);
    ShortfallIsTheSchedules(c, pays, n, d);
    OverchargeOfTheLast(c, pays, d);
    DayOfTheBook(c, d);
    NoShortfall(-pays[n]);
  }

  lemma Unpack(c: Estimate, pays: seq<real>)
    requires Vouched(c, pays)
    ensures c.Shaped() && |c.required| == |c.dueDates| == |pays| > 0 && Ascend(c.dueDates)
    ensures c.payments == PaidOnDueDates(c.dueDates, pays)
  {
  }

  lemma NoShortfall(x: real)
    ensures Max(0.0, -0.0) == 0.0 && Min(x, x) == x && (Max(0.0, x) == 0.0 <==> x <= 0.0)
  {
  }

  /** Without negative payments the balances on every day are the schedule's shortfall. */
  lemma BalancesAreTheSchedules(c: Estimate, pays: seq<real>, i: nat, d: Date)
    requires Vouched(c, pays) && 0.0 <= pays[|pays| - 1] && LastDue(c.dueDates, i, d)
    ensures Sum(BookOn(Replay(c), d).balance) == Max(0.0, -Carry(c.required, c.withholding, pays, i + 1))
  {
    ShortfallIsTheSchedules(c, pays, i, d);
    OverchargeOfTheLast(c, pays, d);
    DayOfTheBook(c, d);
    hide Carry, Replay, BookOn, Sum, ShortfallOn, PaidThrough, RequiredThrough;
  }

  /** The interest on an overcharge that begins on day `s` and stays. */
  lemma {:induction false} SteadyOvercharge(es: seq<Event>, rates: RateTable, s: Date, amount: real, e: Date)
    requires forall d: Date :: BookOn(es, d).Overcharge() == if d < s then 0.0 else amount
    ensures OverchargePenalty(es, rates, e) == if e <= s then 0.0 else amount * Interest(rates, s, e)
    decreases e
  {
    hide DayPrice, BookOn, Book.Overcharge;
    if 1 < e {
      SteadyOvercharge(es, rates, s, amount, e - 1);
      if s == e - 1 {
        Distribute(amount, 0.0, DayPrice(rates, s));
        assert Interest(rates, s, s) == 0.0;
      } else if s < e - 1 {
        Distribute(amount, Interest(rates, s, e - 1), DayPrice(rates, e - 1));
      }
    }
  }

  /**
   * The penalty of such a schedule is the interest on the shortfall, and on what the last payment took back since then.
   */
  lemma SpuriousInterest(c: Estimate, pays: seq<real>, rates: RateTable, e: Date)
    requires Vouched(c, pays)
    ensures var n := |pays| - 1;
            var need := c.required[n] - c.withholding - Carry(c.required, c.withholding, pays, n);
            OverchargePenalty(Replay(c), rates, e) ==
              if e <= c.dueDates[n] then 0.0 else Max(0.0, Min(-need, -pays[n])) * Interest(rates, c.dueDates[n], e)
  {
    hide *;
    Unpack(c, pays);
    var n := |pays| - 1;
    var spurious := Max(0.0, Min(-(c.required[n] - c.withholding - Carry(c.required, c.withholding, pays, n)),
      -pays[n]));
    forall d: Date ensures BookOn(Replay(c), d).Overcharge() == if d < c.dueDates[n] then 0.0 else spurious {
      OverchargeOfTheLast(c, pays, d);
    }
    SteadyOvercharge(Replay(c), rates, c.dueDates[n], spurious, e);
  }

  /**
   * Two installments of 100, 300 paid on the first: the last voucher needs -100, and the first installment owes 100
   * again.
   */
  lemma OverpaidFirstOwesAgain(first: Date, second: Date, returnDue: Date, d: Date)
    requires first < second <= d
    ensures var c := Estimate([100.0, 100.0], [first, second], 0.0, PaidOnDueDates([first, second], [300.0, -100.0]),
              returnDue);
            && Vouched(c, [300.0, -100.0])
            && -100.0 == c.required[1] - c.withholding - Carry(c.required, c.withholding, [300.0, -100.0], 1)
            && ShortfallOn(c, d) == 0.0 && Sum(BookOn(Replay(c), d).balance) == 100.0
  {
    var pays := [300.0, -100.0];
    var c := Estimate([100.0, 100.0], [first, second], 0.0, PaidOnDueDates([first, second], pays), returnDue);
    assert pays[..1] == [300.0];
    assert Carry(c.required, 0.0, pays, 1) == Carry(c.required, 0.0, pays, 0) + 300.0 + 0.0 - 100.0;
    LastVoucherSettles(c, pays, d);
  }

  lemma FullyPaid(required: seq<real>, withholding: real, pays: seq<real>)
    requires 0 < |pays| == |required|
    requires var n := |pays| - 1;
             pays[n] == required[n] - withholding - Carry(required, withholding, pays, n)
    ensures Carry(required, withholding, pays, |pays|) == 0.0
  {
  }
}
