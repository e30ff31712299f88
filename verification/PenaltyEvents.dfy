/** The dated events of a section 6654 estimate and their replay order. */
module PenaltyEvents {
  import opened Calendar
  import opened Estimate

  datatype Kind = Due | Pay | End

  datatype Event = Event(date: Date, kind: Kind, amount: real, idx: int)

  function Rank(kind: Kind): int {
    match kind
    case Due => 0
    case Pay => 1
    case End => 2
  }

  /** On one date installments fall due first, then payments are applied. */
  predicate NotAfter(a: Event, b: Event) {
    a.date < b.date || (a.date == b.date && Rank(a.kind) <= Rank(b.kind))
  }

  function InstallmentEvents(required: seq<real>, dueDates: seq<Date>, withholding: real, i: nat): seq<Event>
    requires |required| == |dueDates| && i <= |required|
    decreases |required| - i
  {
    if i == |required| then []
    else
      [Event(dueDates[i], Due, required[i], i), Event(dueDates[i], Pay, withholding, i)]
      + InstallmentEvents(required, dueDates, withholding, i + 1)
  }

  function PaymentEvents(payments: seq<Payment>): seq<Event> {
    if payments == [] then [] else [Event(payments[0].date, Pay, payments[0].amount, -1)] + PaymentEvents(payments[1..])
  }

  function EventsOf(c: Estimate): seq<Event>
    requires |c.required| == |c.dueDates|
  {
    InstallmentEvents(c.required, c.dueDates, c.withholding, 0) + PaymentEvents(c.payments)
      + [Event(c.returnDue, End, 0.0, -1)]
  }

  // ---------- The stable sort ----------

  function Insert(e: Event, es: seq<Event>): seq<Event> {
    if es == [] || NotAfter(e, es[0]) then [e] + es else [es[0]] + Insert(e, es[1..])
  }

  function SortEvents(es: seq<Event>): seq<Event> {
    if es == [] then [] else Insert(es[0], SortEvents(es[1..]))
  }

  ghost predicate InOrder(es: seq<Event>) {
    forall i, j :: 0 <= i < j < |es| ==> NotAfter(es[i], es[j])
  }

  lemma {:induction false} InsertPermutes(e: Event, es: seq<Event>)
    ensures multiset(Insert(e, es)) == multiset([e] + es)
  {
    if !(es == [] || NotAfter(e, es[0])) {
      InsertPermutes(e, es[1..]);
      assert es == [es[0]] + es[1..];
    }
  }

  lemma {:induction false} InsertKeepsOrder(e: Event, es: seq<Event>)
    requires InOrder(es)
    ensures InOrder(Insert(e, es))
  {
    if !(es == [] || NotAfter(e, es[0])) {
      InsertKeepsOrder(e, es[1..]);
      InsertPermutes(e, es[1..]);
      var rest := Insert(e, es[1..]);
      forall j | 0 <= j < |rest| ensures NotAfter(es[0], rest[j]) {
        assert rest[j] in multiset([e] + es[1..]);
        assert rest[j] == e || rest[j] in es[1..];
      }
    }
  }

  lemma {:induction false} SortOrders(es: seq<Event>)
    ensures InOrder(SortEvents(es))
    ensures multiset(SortEvents(es)) == multiset(es)
    ensures forall i, j :: 0 <= i < j < |SortEvents(es)| ==>
              var a, b := SortEvents(es)[i], SortEvents(es)[j];
              a.date < b.date || (a.date == b.date && (b.kind.Due? ==> a.kind.Due?) && (a.kind.End? ==> b.kind.End?))
  {
    if es != [] {
      SortOrders(es[1..]);
      InsertKeepsOrder(es[0], SortEvents(es[1..]));
      InsertPermutes(es[0], SortEvents(es[1..]));
      assert es == [es[0]] + es[1..];
    }
  }

  // ---------- What the order preserves ----------

  /** The due events, in sequence. */
  function Dues(es: seq<Event>): seq<Event> {
    if es == [] then [] else (if es[0].kind.Due? then [es[0]] else []) + Dues(es[1..])
  }

  /** Payments dated on or before `d`. */
  function PaidIn(es: seq<Event>, d: Date): real {
    if es == [] then 0.0 else (if es[0].kind.Pay? && es[0].date <= d then es[0].amount else 0.0) + PaidIn(es[1..], d)
  }

  function PaidInAll(es: seq<Event>): real {
    if es == [] then 0.0 else (if es[0].kind.Pay? then es[0].amount else 0.0) + PaidInAll(es[1..])
  }

  lemma {:induction false} DuesConcat(a: seq<Event>, b: seq<Event>)
    ensures Dues(a + b) == Dues(a) + Dues(b)
  {
    if a == [] {
      assert a + b == b;
    } else {
      DuesConcat(a[1..], b);
      assert (a + b)[1..] == a[1..] + b;
      DuesHead(a);
      DuesHead(a + b);
      hide *;
      Joined(DueOf(a[0]), Dues(a[1..]), Dues(b));
    }
  }

  lemma Joined<T>(a: seq<T>, b: seq<T>, c: seq<T>)
    ensures a + (b + c) == a + b + c
  {
  }

  function DueOf(e: Event): seq<Event> {
    if e.kind.Due? then [e] else []
  }

  lemma DuesHead(es: seq<Event>)
    requires es != []
    ensures Dues(es) == DueOf(es[0]) + Dues(es[1..])
  {
  }

  lemma {:induction false} PaidInConcat(a: seq<Event>, b: seq<Event>, d: Date)
    ensures PaidIn(a + b, d) == PaidIn(a, d) + PaidIn(b, d)
    ensures PaidInAll(a + b) == PaidInAll(a) + PaidInAll(b)
  {
    if a == [] {
      assert a + b == b;
    } else {
      PaidInConcat(a[1..], b, d);
      assert (a + b)[1..] == a[1..] + b;
    }
  }

  lemma {:induction false} InsertKeepsPaid(e: Event, es: seq<Event>, d: Date)
    ensures PaidIn(Insert(e, es), d) == PaidIn([e] + es, d)
  {
    if !(es == [] || NotAfter(e, es[0])) {
      InsertKeepsPaid(e, es[1..], d);
      assert ([e] + es)[1..] == es && ([e] + es[1..])[1..] == es[1..];
    }
  }

  lemma {:induction false} SortKeepsPaid(es: seq<Event>, d: Date)
    ensures PaidIn(SortEvents(es), d) == PaidIn(es, d)
  {
    if es != [] {
      SortKeepsPaid(es[1..], d);
      InsertKeepsPaid(es[0], SortEvents(es[1..]), d);
      assert ([es[0]] + SortEvents(es[1..]))[1..] == SortEvents(es[1..]);
    }
  }

  /** Inserting in front of equals keeps the due events in their given sequence. */
  lemma {:induction false} InsertKeepsDues(e: Event, es: seq<Event>)
    requires e.kind.Due? ==> forall x :: x in Dues(es) ==> e.date <= x.date
    ensures Dues(Insert(e, es)) == Dues([e] + es)
  {
    assert ([e] + es)[1..] == es;
    if !(es == [] || NotAfter(e, es[0])) {
      assert e.kind.Due? ==> !es[0].kind.Due?;
      InsertKeepsDues(e, es[1..]);
      assert ([e] + es[1..])[1..] == es[1..];
      assert ([es[0]] + Insert(e, es[1..]))[1..] == Insert(e, es[1..]);
    }
  }

  ghost predicate DatesAscend(es: seq<Event>) {
    forall i, j :: 0 <= i < j < |es| ==> es[i].date <= es[j].date
  }

  lemma {:induction false} SortKeepsDues(es: seq<Event>)
    requires DatesAscend(Dues(es))
    ensures Dues(SortEvents(es)) == Dues(es)
  {
    if es != [] {
      var e, rest := es[0], es[1..];
      assert Dues(es) == if e.kind.Due? then [e] + Dues(rest) else Dues(rest);
      assert DatesAscend(Dues(rest)) by {
        if e.kind.Due? {
          assert Dues(es) == [e] + Dues(rest);
          forall i, j | 0 <= i < j < |Dues(rest)| ensures Dues(rest)[i].date <= Dues(rest)[j].date {
            assert Dues(es)[i + 1] == Dues(rest)[i] && Dues(es)[j + 1] == Dues(rest)[j];
          }
        }
      }
      SortKeepsDues(rest);
      if e.kind.Due? {
        forall x | x in Dues(rest) ensures e.date <= x.date {
          var j :| 0 <= j < |Dues(rest)| && Dues(rest)[j] == x;
          assert Dues(es)[0] == e && Dues(es)[j + 1] == x;
        }
      }
      InsertKeepsDues(e, SortEvents(rest));
      assert ([e] + SortEvents(rest))[1..] == SortEvents(rest);
    }
  }

  // ---------- The events carry exactly the estimate ----------

  function DueEvents(required: seq<real>, dueDates: seq<Date>): seq<Event>
    requires |required| == |dueDates|
  {
    seq(|required|, i requires 0 <= i < |required| => Event(dueDates[i], Due, required[i], i))
  }

  lemma {:induction false} InstallmentEventsCarry(required: seq<real>, dueDates: seq<Date>, withholding: real, i: nat,
          d: Date)
    requires |required| == |dueDates| && i <= |required|
    ensures Dues(InstallmentEvents(required, dueDates, withholding, i)) == DueEvents(required, dueDates)[i..]
    ensures PaidIn(InstallmentEvents(required, dueDates, withholding, i), d)
              == WithheldThrough(dueDates[i..], withholding, d)
    decreases |required| - i
  {
    if i < |required| {
      InstallmentEventsCarry(required, dueDates, withholding, i + 1, d);
      var due, pay := Event(dueDates[i], Due, required[i], i), Event(dueDates[i], Pay, withholding, i);
      var rest := InstallmentEvents(required, dueDates, withholding, i + 1);
      assert ([due, pay] + rest)[1..] == [pay] + rest && ([pay] + rest)[1..] == rest;
      assert dueDates[i..][1..] == dueDates[i + 1..];
      assert DueEvents(required, dueDates)[i..] == [due] + DueEvents(required, dueDates)[i + 1..];
    }
  }

  lemma {:induction false} PaymentEventsCarry(payments: seq<Payment>, d: Date)
    ensures Dues(PaymentEvents(payments)) == []
    ensures PaidIn(PaymentEvents(payments), d) == EstimatedThrough(payments, d)
  {
    if payments != [] {
      PaymentEventsCarry(payments[1..], d);
      assert PaymentEvents(payments)[1..] == PaymentEvents(payments[1..]);
    }
  }

  /** The events in the order they are replayed. */
  function Replay(c: Estimate): seq<Event>
    requires |c.required| == |c.dueDates|
  {
    SortEvents(EventsOf(c))
  }

  /** In replay order the due events are the installments in order, and the payments are the estimate's payments. */
  lemma ReplayCarriesTheEstimate(c: Estimate, d: Date)
    requires c.Shaped()
    ensures Dues(Replay(c)) == DueEvents(c.required, c.dueDates)
    ensures PaidIn(Replay(c), d) == PaidThrough(c, d)
  {
    var a := InstallmentEvents(c.required, c.dueDates, c.withholding, 0);
    var b := PaymentEvents(c.payments);
    var e := [Event(c.returnDue, End, 0.0, -1)];
    InstallmentEventsCarry(c.required, c.dueDates, c.withholding, 0, d);
    PaymentEventsCarry(c.payments, d);
    PaidInConcat(a + b, e, d);
    PaidInConcat(a, b, d);
    DuesConcat(a + b, e);
    DuesConcat(a, b);
    assert c.dueDates[0..] == c.dueDates;
    assert Dues(EventsOf(c)) == DueEvents(c.required, c.dueDates);
    SortKeepsDues(EventsOf(c));
    SortKeepsPaid(EventsOf(c), d);
  }

  ghost predicate AmountsNonNegative(es: seq<Event>) {
    forall e :: e in es ==> 0.0 <= e.amount
  }

  lemma {:induction false} InstallmentAmounts(required: seq<real>, dueDates: seq<Date>, withholding: real, i: nat)
    requires |required| == |dueDates| && i <= |required| && 0.0 <= withholding
    requires forall j :: 0 <= j < |required| ==> 0.0 <= required[j]
    ensures AmountsNonNegative(InstallmentEvents(required, dueDates, withholding, i))
    decreases |required| - i
  {
    if i < |required| {
      InstallmentAmounts(required, dueDates, withholding, i + 1);
    }
  }

  lemma {:induction false} PaymentAmounts(payments: seq<Payment>)
    requires forall i :: 0 <= i < |payments| ==> 0.0 <= payments[i].amount
    ensures AmountsNonNegative(PaymentEvents(payments))
  {
    if payments != [] {
      PaymentAmounts(payments[1..]);
    }
  }

  lemma ReplayIsOrdered(c: Estimate)
    requires c.Shaped()
    ensures InOrder(Replay(c))
    ensures exists e :: e in Replay(c) && e.date == c.returnDue
  {
    var es := EventsOf(c);
    SortOrders(es);
    assert es[|es| - 1] in multiset(es);
  }

  lemma ReplayHasNoNegativeAmount(c: Estimate)
    requires c.WellFormed()
    ensures AmountsNonNegative(Replay(c))
  {
    var es := EventsOf(c);
    SortOrders(es);
    InstallmentAmounts(c.required, c.dueDates, c.withholding, 0);
    PaymentAmounts(c.payments);
    forall e | e in SortEvents(es) ensures 0.0 <= e.amount {
      assert e in multiset(es);
    }
  }

  // ---------- Prefixes of the replay ----------

  lemma {:induction false} PaidInBounds(es: seq<Event>, d: Date)
    requires AmountsNonNegative(es)
    ensures 0.0 <= PaidIn(es, d) <= PaidInAll(es)
    ensures (forall e :: e in es ==> e.date <= d) ==> PaidIn(es, d) == PaidInAll(es)
    ensures (forall e :: e in es ==> d < e.date) ==> PaidIn(es, d) == 0.0
  {
    if es != [] {
      PaidInBounds(es[1..], d);
    }
  }

  /** Replaying a prefix has applied all payments dated before its last date, and none dated after it. */
  lemma PrefixPaid(es: seq<Event>, j: nat, d: Date)
    requires j <= |es| && AmountsNonNegative(es)
    ensures 0.0 <= PaidInAll(es[..j])
    ensures (forall i :: 0 <= i < j ==> es[i].date <= d) ==> PaidInAll(es[..j]) <= PaidIn(es, d)
    ensures (forall i :: j <= i < |es| ==> d < es[i].date) ==> PaidIn(es, d) <= PaidInAll(es[..j])
  {
    assert es == es[..j] + es[j..];
    PaidInConcat(es[..j], es[j..], d);
    PaidInBounds(es[..j], d);
    PaidInBounds(es[j..], d);
  }

  lemma PrefixStep(es: seq<Event>, j: nat)
    requires j < |es|
    ensures PaidInAll(es[..j + 1]) == PaidInAll(es[..j]) + if es[j].kind.Pay? then es[j].amount else 0.0
    ensures Dues(es[..j + 1]) == Dues(es[..j]) + if es[j].kind.Due? then [es[j]] else []
    ensures es[j].kind.Due? ==> |Dues(es[..j])| < |Dues(es)| && Dues(es)[|Dues(es[..j])|] == es[j]
    ensures |Dues(es[..j + 1])| <= |Dues(es)|
  {
    assert es[..j + 1] == es[..j] + [es[j]];
    PaidInConcat(es[..j], [es[j]], 1);
    DuesConcat(es[..j], [es[j]]);
    assert es == es[..j + 1] + es[j + 1..];
    DuesConcat(es[..j + 1], es[j + 1..]);
  }
}
