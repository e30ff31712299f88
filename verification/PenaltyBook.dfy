/** The ledger's balances as a function of the events replayed, whatever the signs of the payments. */
module PenaltyBook {
  import opened Amounts
  import opened Calendar
  import opened Estimate
  import opened PenaltyEvents

  /** The balances of the installments due so far, and the overpayment on hand. */
  datatype Book = Book(balance: seq<real>, over: real) {
    /** A balance is never negative, and once an installment is due the overpayment is not either. */
    ghost predicate Valid() {
      NonNegative(balance) && (balance != [] ==> 0.0 <= over)
    }

    /** What is paid beyond what is required so far. */
    function Position(): real {
      over - Sum(balance)
    }

    /** What the balances hold beyond the shortfall. */
    function Overcharge(): real {
      Min(over, Sum(balance))
    }
  }

  const EMPTY: Book := Book([], 0.0)

  /** A payment taken by the earliest balances in turn, and what is left of it. */
  function Take(balance: seq<real>, amount: real): (seq<real>, real) {
    if balance == [] then ([], amount)
    else
      var take := Min(balance[0], amount);
      var rest := amount - take;
      if rest <= 0.0 then ([balance[0] - take] + balance[1..], rest)
      else
        var (later, left) := Take(balance[1..], rest);
        ([balance[0] - take] + later, left)
  }

  function WithPayment(b: Book, amount: real): Book {
    var (balance, left) := Take(b.balance, amount);
    Book(balance, b.over + left)
  }

  function WithInstallment(b: Book, amount: real): Book {
    var rest := amount - b.over;
    Book(b.balance + [Max(0.0, rest)], Max(0.0, -rest))
  }

  function Apply(b: Book, e: Event): Book {
    match e.kind
    case Due => WithInstallment(b, e.amount)
    case Pay => WithPayment(b, e.amount)
    case End => b
  }

  function After(es: seq<Event>): Book {
    if es == [] then EMPTY else Apply(After(es[..|es| - 1]), es[|es| - 1])
  }

  // ---------- What every event keeps ----------

  lemma {:induction false} SumCons(x: real, xs: seq<real>)
    ensures Sum([x] + xs) == x + Sum(xs)
  {
    if xs == [] {
      assert [x] + xs == [x] && [x][..0] == [];
    } else {
      var n := |xs| - 1;
      SumCons(x, xs[..n]);
      assert ([x] + xs)[..n + 1] == [x] + xs[..n];
    }
  }

  /** What a payment takes from the balances is what is not left of it. */
  lemma {:induction false} TakeKeepsTheSum(balance: seq<real>, amount: real)
    ensures var (after, left) := Take(balance, amount);
            |after| == |balance| && Sum(balance) - Sum(after) == amount - left
  {
    if balance != [] {
      var take := Min(balance[0], amount);
      var rest := amount - take;
      assert balance == [balance[0]] + balance[1..];
      SumCons(balance[0], balance[1..]);
      if rest <= 0.0 {
        SumCons(balance[0] - take, balance[1..]);
      } else {
        TakeKeepsTheSum(balance[1..], rest);
        SumCons(balance[0] - take, Take(balance[1..], rest).0);
      }
    }
  }

  lemma {:induction false} TakeKeepsSigns(balance: seq<real>, amount: real)
    requires NonNegative(balance)
    ensures var (after, left) := Take(balance, amount);
            NonNegative(after) && (balance != [] || 0.0 <= amount ==> 0.0 <= left)
              && (amount < 0.0 && balance != [] ==> left == 0.0)
  {
    if balance != [] {
      var rest := amount - Min(balance[0], amount);
      if 0.0 < rest {
        TakeKeepsSigns(balance[1..], rest);
      }
    }
  }

  /** A payment of any sign moves the position by its amount, an installment by its own the other way. */
  lemma ApplyMovesThePosition(b: Book, e: Event)
    requires b.Valid() && (e.kind.Due? ==> 0.0 <= e.amount)
    ensures Apply(b, e).Valid()
    ensures Apply(b, e).Position()
              == b.Position() + match e.kind case Due => -e.amount case Pay => e.amount case End => 0.0
  {
    match e.kind {
      case Due =>
        var balance := Apply(b, e).balance;
        assert balance[..|b.balance|] == b.balance;
      case Pay =>
        TakeKeepsTheSum(b.balance, e.amount);
        TakeKeepsSigns(b.balance, e.amount);
      case End =>
    }
  }

  /** The balances are the shortfall and the overcharge, the overpayment on hand is the surplus and the overcharge. */
  lemma BalancesAreShortfallAndOvercharge(b: Book)
    requires b.Valid()
    ensures Sum(b.balance) == Max(0.0, -b.Position()) + b.Overcharge()
    ensures b.Overcharge() == 0.0 <==> Sum(b.balance) == Max(0.0, -b.Position())
  {
  }

  /**
   * A negative payment with an installment due goes to the first balance and takes nothing from an overpayment on hand.
   * Afterwards the balances are the shortfall if and only if there was none.
   */
  lemma NegativePayment(b: Book, amount: real)
    requires b.Valid() && b.balance != [] && amount < 0.0
    ensures WithPayment(b, amount) == Book(b.balance[0 := b.balance[0] - amount], b.over)
    ensures var next := WithPayment(b, amount);
            Sum(next.balance) == Max(0.0, -next.Position()) <==> b.over == 0.0
  {
    var next := WithPayment(b, amount);
    assert next.balance == [b.balance[0] - amount] + b.balance[1..];
    TakeKeepsTheSum(b.balance, amount);
    TakeKeepsSigns(b.balance, amount);
    SumNonNegative(b.balance);
  }

  lemma {:induction false} SumNonNegative(xs: seq<real>)
    requires NonNegative(xs)
    ensures 0.0 <= Sum(xs)
    ensures Sum(xs) == 0.0 <==> forall i :: 0 <= i < |xs| ==> xs[i] == 0.0
  {
    if xs != [] {
      SumNonNegative(xs[..|xs| - 1]);
    }
  }

  // ---------- Without negative amounts nothing is overcharged ----------

  lemma {:induction false} LeftOnlyWhenSettled(balance: seq<real>, amount: real)
    requires NonNegative(balance) && 0.0 <= amount
    ensures 0.0 < Take(balance, amount).1 ==> Sum(Take(balance, amount).0) == 0.0
    ensures Sum(balance) == 0.0 ==> Take(balance, amount).1 == amount && Sum(Take(balance, amount).0) == 0.0
  {
    SumNonNegative(balance);
    TakeKeepsSigns(balance, amount);
    TakeKeepsTheSum(balance, amount);
    SumNonNegative(Take(balance, amount).0);
    if balance != [] {
      var take := Min(balance[0], amount);
      if 0.0 < amount - take {
        LeftOnlyWhenSettled(balance[1..], amount - take);
        SumCons(balance[0] - take, Take(balance[1..], amount - take).0);
      }
    }
  }

  lemma PlainEventKeeps(b: Book, e: Event)
    requires b.Valid() && 0.0 <= b.over && b.Overcharge() == 0.0 && 0.0 <= e.amount
    ensures Apply(b, e).Valid() && 0.0 <= Apply(b, e).over && Apply(b, e).Overcharge() == 0.0
  {
    ApplyMovesThePosition(b, e);
    SumNonNegative(b.balance);
    SumNonNegative(Apply(b, e).balance);
    if e.kind.Pay? {
      LeftOnlyWhenSettled(b.balance, e.amount);
      TakeKeepsSigns(b.balance, e.amount);
    } else if e.kind.Due? {
      assert Apply(b, e).balance[..|b.balance|] == b.balance;
    }
  }

  /** Events without negative amounts, in any order, never overcharge. */
  lemma {:induction false} PlainEventsNeverOvercharge(es: seq<Event>)
    requires AmountsNonNegative(es)
    ensures After(es).Valid() && 0.0 <= After(es).over && After(es).Overcharge() == 0.0
  {
    if es != [] {
      PlainEventsNeverOvercharge(es[..|es| - 1]);
      PlainEventKeeps(After(es[..|es| - 1]), es[|es| - 1]);
    }
  }

  // ---------- First in, first out ----------

  /** Each balance and the overpayment on hand are functions of what was required and what was paid so far. */
  ghost predicate Reflects(b: Book, required: seq<real>, paid: real) {
    && |b.balance| == |required|
    && NonNegative(required) && 0.0 <= paid
    && (forall i :: 0 <= i < |required| ==> b.balance[i] == Unpaid(required, i, paid))
    && b.over == Max(0.0, paid - Sum(required))
  }

  /** What is left of a payment of `amount` after the first `i` installments have taken their part. */
  function Remaining(required: seq<real>, i: nat, paid: real, amount: real): real
    requires i <= |required|
  {
    Max(0.0, amount - Max(0.0, Sum(required[..i]) - paid))
  }

  lemma SumSnoc(required: seq<real>, i: nat)
    requires i < |required|
    ensures Sum(required[..i + 1]) == Sum(required[..i]) + required[i]
  {
    assert required[..i + 1][..i] == required[..i];
  }

  lemma TakeFromOne(required: seq<real>, i: nat, paid: real, amount: real)
    requires i < |required| && 0.0 <= paid && 0.0 <= amount
    requires NonNegative(required)
    ensures var take := Min(Unpaid(required, i, paid), Remaining(required, i, paid, amount));
            && Unpaid(required, i, paid) - take == Unpaid(required, i, paid + amount)
            && Remaining(required, i, paid, amount) - take == Remaining(required, i + 1, paid, amount)
  {
    SumSnoc(required, i);
    SumMonotone(required, 0, i);
  }

  /** Once nothing is left, the later installments are as they were. */
  lemma NothingLeft(required: seq<real>, i: nat, paid: real, amount: real)
    requires i <= |required| && 0.0 <= paid && 0.0 <= amount && NonNegative(required)
    requires Remaining(required, i, paid, amount) <= 0.0
    ensures forall k :: i <= k < |required| ==> Unpaid(required, k, paid + amount) == Unpaid(required, k, paid)
    ensures Remaining(required, |required|, paid, amount) == 0.0
  {
    forall k | i <= k < |required| ensures Unpaid(required, k, paid + amount) == Unpaid(required, k, paid) {
      SumMonotone(required, i, k);
      SumSnoc(required, k);
    }
    SumMonotone(required, i, |required|);
  }

  function UnpaidFrom(required: seq<real>, i: nat, paid: real): seq<real>
    requires i <= |required|
  {
    seq(|required| - i, k requires 0 <= k < |required| - i => Unpaid(required, i + k, paid))
  }

  /** From installment `i` on, the payment leaves every balance what cumulative payments leave of it. */
  lemma {:induction false} TakeIsFirstInFirstOut(required: seq<real>, i: nat, paid: real, amount: real)
    requires i <= |required| && 0.0 <= paid && 0.0 <= amount && NonNegative(required)
    ensures Take(UnpaidFrom(required, i, paid), Remaining(required, i, paid, amount))
         == (UnpaidFrom(required, i, paid + amount), Remaining(required, |required|, paid, amount))
    decreases |required| - i
  {
    var balance, n := UnpaidFrom(required, i, paid), |required|;
    if i < n {
      TakeFromOne(required, i, paid, amount);
      assert balance[1..] == UnpaidFrom(required, i + 1, paid);
      var first := Unpaid(required, i, paid + amount);
      assert UnpaidFrom(required, i, paid + amount) == [first] + UnpaidFrom(required, i + 1, paid + amount);
      if Remaining(required, i + 1, paid, amount) <= 0.0 {
        NothingLeft(required, i + 1, paid, amount);
        assert UnpaidFrom(required, i + 1, paid + amount) == UnpaidFrom(required, i + 1, paid);
      } else {
        TakeIsFirstInFirstOut(required, i + 1, paid, amount);
      }
      hide Unpaid, Remaining, UnpaidFrom;
    } else {
      assert UnpaidFrom(required, i, paid + amount) == [];
    }
  }

  /** A payment that is not negative leaves the books a function of required and paid amounts. */
  lemma PaymentReflects(b: Book, required: seq<real>, paid: real, amount: real)
    requires Reflects(b, required, paid) && 0.0 <= amount
    ensures Reflects(WithPayment(b, amount), required, paid + amount)
  {
    assert required[..|required|] == required && required[..0] == [];
    assert b.balance == UnpaidFrom(required, 0, paid);
    assert Remaining(required, 0, paid, amount) == amount;
    TakeIsFirstInFirstOut(required, 0, paid, amount);
    hide Take, Unpaid, Sum;
  }

  /** A new installment leaves the earlier ones as they were and takes the overpayment on hand. */
  lemma InstallmentReflects(b: Book, required: seq<real>, paid: real, amount: real)
    requires Reflects(b, required, paid) && 0.0 <= amount
    ensures Reflects(WithInstallment(b, amount), required + [amount], paid)
  {
    var all, n := required + [amount], |required|;
    assert all[..n] == required && all[..n + 1] == all;
    hide Sum;
    assert Sum(all) == Sum(required) + amount by { SumSnoc(all, n); }
    forall k | 0 <= k < n ensures Unpaid(all, k, paid) == Unpaid(required, k, paid) {
      assert all[..k + 1] == required[..k + 1];
    }
  }

  /** As long as no payment is negative, an overpayment on hand means that every due installment is settled. */
  lemma OverpaidMeansSettled(b: Book, required: seq<real>, paid: real)
    requires Reflects(b, required, paid)
    ensures 0.0 < b.over ==> forall i :: 0 <= i < |b.balance| ==> b.balance[i] == 0.0
    ensures b.Valid() && b.Overcharge() == 0.0
  {
    if 0.0 < b.over {
      forall i | 0 <= i < |required| ensures b.balance[i] == 0.0 {
        SumMonotone(required, i + 1, |required|);
        assert required[..|required|] == required;
      }
    }
    SumNonNegative(b.balance);
  }

  // ---------- Day by day ----------

  /** The events dated on or before `d`, of events in date order. */
  function Upto(es: seq<Event>, d: Date): seq<Event> {
    if es == [] || d < es[0].date then [] else [es[0]] + Upto(es[1..], d)
  }

  lemma {:induction false} UptoIs(es: seq<Event>, j: nat, d: Date)
    requires j <= |es| && (forall i :: 0 <= i < j ==> es[i].date <= d) && (j < |es| ==> d < es[j].date)
    ensures Upto(es, d) == es[..j]
  {
    if j > 0 {
      UptoIs(es[1..], j - 1, d);
      assert es[..j] == [es[0]] + es[1..][..j - 1];
    }
  }

  /** In order, the events up to a day are a prefix. */
  lemma {:induction false} UptoSplits(es: seq<Event>, d: Date) returns (j: nat)
    requires InOrder(es)
    ensures j <= |es| && (forall i :: 0 <= i < j ==> es[i].date <= d) && (forall i :: j <= i < |es| ==> d < es[i].date)
    ensures Upto(es, d) == es[..j]
  {
    j := 0;
    while j < |es| && es[j].date <= d
      invariant j <= |es| && forall i :: 0 <= i < j ==> es[i].date <= d
    {
      j := j + 1;
    }
    forall i | j <= i < |es| ensures d < es[i].date {
      if j < i { assert NotAfter(es[j], es[i]); }
    }
    UptoIs(es, j, d);
  }

  function BookOn(es: seq<Event>, d: Date): Book {
    After(Upto(es, d))
  }

  /** The balance of installment `i` at the end of day `d`. */
  function BalanceOn(es: seq<Event>, i: nat, d: Date): real {
    var balance := BookOn(es, d).balance;
    if i < |balance| then balance[i] else 0.0
  }

  // ---------- The position ----------

  ghost predicate DuesNonNegative(es: seq<Event>) {
    forall e :: e in es && e.kind.Due? ==> 0.0 <= e.amount
  }

  /** Installments due on or before `d`. */
  function RequiredIn(es: seq<Event>, d: Date): real {
    if es == [] then 0.0
    else (if es[0].kind.Due? && es[0].date <= d then es[0].amount else 0.0) + RequiredIn(es[1..], d)
  }

  lemma {:induction false} RequiredInConcat(a: seq<Event>, b: seq<Event>, d: Date)
    ensures RequiredIn(a + b, d) == RequiredIn(a, d) + RequiredIn(b, d)
  {
    if a == [] {
      assert a + b == b;
    } else {
      RequiredInConcat(a[1..], b, d);
      assert (a + b)[1..] == a[1..] + b;
    }
  }

  /** Replayed up to `d`, the position is what is paid by then less what is required by then. */
  lemma {:induction false} PositionOfPrefix(es: seq<Event>, d: Date)
    requires DuesNonNegative(es) && forall e :: e in es ==> e.date <= d
    ensures After(es).Valid() && After(es).Position() == PaidIn(es, d) - RequiredIn(es, d)
    ensures |After(es).balance| == |Dues(es)|
  {
    if es != [] {
      var n := |es| - 1;
      PositionOfPrefix(es[..n], d);
      ApplyMovesThePosition(After(es[..n]), es[n]);
      assert es == es[..n] + [es[n]] && [es[n]][1..] == [];
      PaidInConcat(es[..n], [es[n]], d);
      RequiredInConcat(es[..n], [es[n]], d);
      DuesConcat(es[..n], [es[n]]);
      OneMoreBalance(After(es[..n]), es[n]);
    }
  }

  lemma OneMoreBalance(b: Book, e: Event)
    ensures |Apply(b, e).balance| == |b.balance| + if e.kind.Due? then 1 else 0
  {
    if e.kind.Pay? {
      TakeKeepsTheSum(b.balance, e.amount);
    }
  }

  lemma {:induction false} BalanceCount(es: seq<Event>)
    ensures |After(es).balance| == |Dues(es)|
  {
    if es != [] {
      var n := |es| - 1;
      BalanceCount(es[..n]);
      OneMoreBalance(After(es[..n]), es[n]);
      assert es == es[..n] + [es[n]] && [es[n]][1..] == [];
      DuesConcat(es[..n], [es[n]]);
    }
  }

  lemma {:induction false} NothingBy(es: seq<Event>, d: Date)
    requires forall e :: e in es ==> d < e.date
    ensures PaidIn(es, d) == 0.0 && RequiredIn(es, d) == 0.0
  {
    if es != [] {
      NothingBy(es[1..], d);
    }
  }

  lemma PositionOn(es: seq<Event>, d: Date)
    requires InOrder(es) && DuesNonNegative(es)
    ensures BookOn(es, d).Valid() && BookOn(es, d).Position() == PaidIn(es, d) - RequiredIn(es, d)
    ensures |BookOn(es, d).balance| <= |Dues(es)|
  {
    var j := UptoSplits(es, d);
    PositionOfPrefix(es[..j], d);
    NothingBy(es[j..], d);
    assert es == es[..j] + es[j..];
    PaidInConcat(es[..j], es[j..], d);
    RequiredInConcat(es[..j], es[j..], d);
    DuesConcat(es[..j], es[j..]);
  }

  lemma {:induction false} RequiredInDues(es: seq<Event>, d: Date)
    ensures RequiredIn(Dues(es), d) == RequiredIn(es, d)
  {
    if es != [] {
      RequiredInDues(es[1..], d);
      if es[0].kind.Due? {
        assert ([es[0]] + Dues(es[1..]))[1..] == Dues(es[1..]);
      } else {
        assert [] + Dues(es[1..]) == Dues(es[1..]);
      }
    }
  }

  lemma {:induction false} RequiredInDueEvents(required: seq<real>, dueDates: seq<Date>, d: Date)
    requires |required| == |dueDates|
    ensures RequiredIn(DueEvents(required, dueDates), d) == RequiredThrough(required, dueDates, d)
  {
    var n, all := |required|, DueEvents(required, dueDates);
    if n > 0 {
      RequiredInDueEvents(required[..n - 1], dueDates[..n - 1], d);
      assert all == DueEvents(required[..n - 1], dueDates[..n - 1]) + [all[n - 1]] && [all[n - 1]][1..] == [];
      RequiredInConcat(all[..n - 1], [all[n - 1]], d);
    }
  }

  /** On every day, and for payments of any sign, the balances are the shortfall of the estimate and the overcharge. */
  lemma DayOfTheBook(c: Estimate, d: Date)
    requires c.Shaped()
    ensures var b := BookOn(Replay(c), d);
            && b.Valid() && |b.balance| <= |c.required|
            && b.Position() == PaidThrough(c, d) - RequiredThrough(c.required, c.dueDates, d)
            && Sum(b.balance) == ShortfallOn(c, d) + b.Overcharge()
  {
    var es := Replay(c);
    ReplayIsOrdered(c);
    ReplayCarriesTheEstimate(c, d);
    RequiredInDues(es, d);
    RequiredInDueEvents(c.required, c.dueDates, d);
    DuesOfReplay(c);
    PositionOn(es, d);
    BalancesAreShortfallAndOvercharge(BookOn(es, d));
  }

  lemma DuesOfReplay(c: Estimate)
    requires c.Shaped()
    ensures DuesNonNegative(Replay(c))
  {
    ReplayCarriesTheEstimate(c, 1);
    DuesKeepMembers(Replay(c));
  }

  lemma {:induction false} DuesKeepMembers(es: seq<Event>)
    ensures forall e :: e in es && e.kind.Due? ==> e in Dues(es)
  {
    if es != [] {
      DuesKeepMembers(es[1..]);
      assert es == [es[0]] + es[1..];
    }
  }
}
