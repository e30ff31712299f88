/**
 * The section 6654 schedule of an estimate: the event replay computes, row by row, the interest on the ledger's
 * balance day by day, which for payments that are not negative is the part of the installment that is unpaid.
 */
module PenaltySchedule {
  import opened Wrappers
  import opened Amounts
  import opened Calendar
  import opened UnderpaymentInterest
  import opened Estimate
  import opened PenaltyBook
  import opened PenaltyEvents
  import opened PenaltyLedger
  import opened PenaltyOvercharge
  import opened PenaltyReplay
  import opened PenaltySegments
  import opened SettlementDates

  datatype Row = Row(due: Date, required: real, stillUnpaid: real, paidInFullOn: Option<Date>, penalty: real,
        segments: seq<Segment>)

  datatype Schedule = Schedule(rows: seq<Row>, total: real)

  ghost predicate UnpaidForGood(c: Estimate, i: nat, from: Date, amount: real)
    requires i < |c.required| == |c.dueDates|
  {
    forall d: Date :: from <= d ==> UnpaidOn(c, i, d) == amount
  }

  /**
   * The segments follow one another between the due date and the return due date. Each is charged on what is unpaid of
   * the installment on each of its days, and a day on which something is unpaid is in one of them.
   */
  ghost predicate SegmentsMean(c: Estimate, rates: RateTable, i: nat, segments: seq<Segment>)
    requires i < |c.required| == |c.dueDates|
  {
    && InLine(segments, c.dueDates[i], c.returnDue)
    && (forall g :: g in segments ==> g.leg.Uniform(rates) && forall d: Date ::
          g.leg.from <= d < g.leg.to ==> UnpaidOn(c, i, d) == g.balance)
    && (forall d: Date :: d < c.returnDue && 0.0 < UnpaidOn(c, i, d) ==> Covered(segments, d))
  }

  /** What a row of the schedule means, day by day. */
  ghost predicate RowMeans(c: Estimate, rates: RateTable, i: nat, row: Row)
    requires i < |c.required| == |c.dueDates|
  {
    && row.due == c.dueDates[i] && row.required == c.required[i]
    && row.penalty == InstallmentPenalty(c, rates, i, c.returnDue)
    && AllProper(row.segments) && row.penalty == SumAmounts(row.segments)
    && SegmentsMean(c, rates, i, row.segments)
    && Settled(c, i, row.paidInFullOn)
    && exists from: Date :: UnpaidForGood(c, i, from, row.stillUnpaid)
  }

  /** What a row charges, for payments of any sign. */
  ghost predicate RowCharges(c: Estimate, rates: RateTable, i: nat, row: Row)
    requires i < |c.required| == |c.dueDates|
  {
    && row.due == c.dueDates[i] && row.required == c.required[i]
    && row.penalty == LedgerPenalty(Replay(c), rates, i, c.returnDue)
    && AllProper(row.segments) && row.penalty == SumAmounts(row.segments)
    && Itemizes(Replay(c), rates, i, row.segments, row.due, c.returnDue)
    && LastSettled(Replay(c), |Replay(c)|, i, row.paidInFullOn)
    && exists from: Date :: OwedForGood(Replay(c), i, from, row.stillUnpaid)
  }

  function Penalties(rows: seq<Row>): seq<real> {
    seq(|rows|, i requires 0 <= i < |rows| => rows[i].penalty)
  }

  lemma StartOfReplay(c: Estimate, rates: RateTable, es: seq<Event>, balance: seq<real>, last: seq<Option<Date>>,
          over: real, penalty: seq<real>, segments: seq<seq<Segment>>, dates: seq<Option<Date>>)
    requires c.Shaped()
    requires |last| == |penalty| == |balance| == |segments| == |dates| == |c.required|
    requires Holds(balance, last, over, EMPTY)
    requires forall i :: 0 <= i < |c.required| ==> penalty[i] == 0.0 && segments[i] == [] && dates[i].None?
    ensures InStep(c, es, 0, Clock(es, 0), balance, last, over, EMPTY)
    ensures Charged(es, rates, penalty, Earlier(Clock(es, 0), c.returnDue))
    ensures Itemized(c, rates, es, segments, Earlier(Clock(es, 0), c.returnDue))
    ensures AllLastSettled(es, 0, dates)
    ensures Dated(c, |EMPTY.balance|, Clock(es, 0), balance, dates)
  {
    assert es[..0] == [];
    NothingItemized(c, rates, es, segments);
    NothingSettled(es, dates);
  }

  lemma TotalIsTheShortfall(c: Estimate, rates: RateTable, rows: seq<Row>)
    requires c.WellFormed() && |rows| == |c.required|
    requires forall i :: 0 <= i < |rows| ==> RowMeans(c, rates, i, rows[i])
    ensures Sum(Penalties(rows)) == ShortfallPenalty(c, rates, 1, c.returnDue)
  {
    assert Penalties(rows) == InstallmentPenalties(c, rates, |rows|, c.returnDue);
    AllocationKeepsTheTotal(c, rates, c.returnDue);
  }

  lemma SamePenalties(rows: seq<Row>, penalty: seq<real>)
    requires |rows| == |penalty| && forall k :: 0 <= k < |rows| ==> rows[k].penalty == penalty[k]
    ensures Penalties(rows) == penalty
  {
  }

  /** What the ledger holds once every event is replayed. */
  ghost predicate Final(c: Estimate, rates: RateTable, es: seq<Event>, balance: seq<real>, penalty: seq<real>,
          segments: seq<seq<Segment>>, dates: seq<Option<Date>>)
    requires |c.required| == |c.dueDates|
  {
    && |balance| == |dates| == |penalty| == |c.required|
    && Charged(es, rates, penalty, c.returnDue) && Itemized(c, rates, es, segments, c.returnDue)
    && (forall i: nat :: i < |balance| ==> OwedForGood(es, i, Clock(es, |es|), balance[i]))
    && AllLastSettled(es, |es|, dates)
    && (c.WellFormed() ==> forall i: nat :: i < |dates| ==> Settled(c, i, dates[i]))
  }

  lemma ReplayEnds(c: Estimate, rates: RateTable, es: seq<Event>, balance: seq<real>, last: seq<Option<Date>>,
          over: real, book: Book, penalty: seq<real>, segments: seq<seq<Segment>>, dates: seq<Option<Date>>)
    requires IsReplay(c, es) && InStep(c, es, |es|, Clock(es, |es|), balance, last, over, book)
    requires Itemized(c, rates, es, segments, Earlier(Clock(es, |es|), c.returnDue))
    requires AllLastSettled(es, |es|, dates)
    requires Charged(es, rates, penalty, Earlier(Clock(es, |es|), c.returnDue)) && |penalty| == |dates| == |c.required|
    requires c.WellFormed() ==> IsPlainReplay(c, es) && Dated(c, |book.balance|, Clock(es, |es|), balance, dates)
    ensures Final(c, rates, es, balance, penalty, segments, dates)
  {
    assert es[..|es|] == es && es != [];
    ClockIsLast(es, Clock(es, |es|));
    assert c.returnDue <= Clock(es, |es|);
    forall i: nat | i < |balance| ensures OwedForGood(es, i, Clock(es, |es|), balance[i]) {
      OwedAtTheEnd(es, i, balance[i]);
    }
    if c.WellFormed() {
      PlainRows(c, es, |es|, Clock(es, |es|), balance, last, over, book);
      FinalDates(c, es, c.required[..|book.balance|], PaidInAll(es), last, balance, over, dates);
    }
    hide After, InOrder, PaidInAll, Dues, OwedForGood, Settled, BalanceOn, IsPlainReplay;
  }

  lemma RowIsCharged(c: Estimate, rates: RateTable, balance: seq<real>, penalty: seq<real>, segments: seq<seq<Segment>>,
          dates: seq<Option<Date>>, i: nat, row: Row)
    requires i < |c.required| == |c.dueDates| == |segments|
    requires Final(c, rates, Replay(c), balance, penalty, segments, dates) && RowsAddUp(penalty, segments)
    requires row == Row(c.dueDates[i], c.required[i], balance[i], dates[i], penalty[i], segments[i])
    ensures RowCharges(c, rates, i, row)
    ensures c.WellFormed() ==> Settled(c, i, row.paidInFullOn)
  {
    hide Replay, Settled, OwedForGood;
    assert OwedForGood(Replay(c), i, Clock(Replay(c), |Replay(c)|), row.stillUnpaid);
  }

  lemma RowIsMeant(c: Estimate, rates: RateTable, i: nat, row: Row)
    requires i < |c.required| == |c.dueDates| && IsPlainReplay(c, Replay(c))
    requires RowCharges(c, rates, i, row) && Settled(c, i, row.paidInFullOn)
    ensures RowMeans(c, rates, i, row)
  {
    PlainPenalty(c, Replay(c), rates, i, c.returnDue);
    var from: Date :| OwedForGood(Replay(c), i, from, row.stillUnpaid);
    forall d: Date | from <= d ensures UnpaidOn(c, i, d) == row.stillUnpaid {
      PlainBalance(c, Replay(c), i, d);
    }
    SegmentsAreMeant(c, rates, i, row.segments);
    hide Replay, IsPlainReplay, Settled, UnpaidOn;
    assert UnpaidForGood(c, i, from, row.stillUnpaid);
  }

  lemma SegmentsAreMeant(c: Estimate, rates: RateTable, i: nat, segments: seq<Segment>)
    requires i < |c.required| == |c.dueDates| && IsPlainReplay(c, Replay(c))
    requires Itemizes(Replay(c), rates, i, segments, c.dueDates[i], c.returnDue)
    ensures SegmentsMean(c, rates, i, segments)
  {
    hide Replay, IsPlainReplay, UnpaidOn, BalanceOn, InLine, Covered, Leg.Uniform, Leg.Proper, IsEnd;
    forall d: Date ensures BalanceOn(Replay(c), i, d) == UnpaidOn(c, i, d) {
      PlainBalance(c, Replay(c), i, d);
    }
    forall g | g in segments ensures g.leg.Uniform(rates) && forall d: Date ::
      g.leg.from <= d < g.leg.to ==> UnpaidOn(c, i, d) == g.balance
    {
      assert Charges(Replay(c), rates, i, g);
    }
  }

  /** Without negative amounts, a day without a rate is one on which an installment is unpaid. */
  lemma PlainError(c: Estimate, rates: RateTable, day: Date)
    requires |c.required| == |c.dueDates| && IsPlainReplay(c, Replay(c))
               && UnpricedBalance(Replay(c), |c.required|, rates, day, c.returnDue)
    ensures Unpriced(c, rates, day)
  {
    var i: nat :| i < |c.required| && 0.0 < BalanceOn(Replay(c), i, day - 1);
    PlainBalance(c, Replay(c), i, day - 1);
    hide Replay, IsPlainReplay, UnpaidOn, BalanceOn;
  }

  /** What the rows of a schedule amount to. */
  lemma RowsTotal(c: Estimate, rates: RateTable, rows: seq<Row>)
    requires c.Shaped() && |rows| == |c.required|
    requires forall i :: 0 <= i < |rows| ==> RowCharges(c, rates, i, rows[i])
    ensures Sum(Penalties(rows))
              == ShortfallPenalty(c, rates, 1, c.returnDue) + OverchargePenalty(Replay(c), rates, c.returnDue)
  {
    assert Penalties(rows) == LedgerPenalties(Replay(c), rates, |rows|, c.returnDue);
    TotalIsShortfallAndOvercharge(c, rates, c.returnDue);
  }

  /** Where no negative payment takes back, nothing is charged beyond the shortfall. */
  lemma ChargesTheShortfallAlone(c: Estimate, rates: RateTable)
    requires c.Shaped()
    ensures NothingTakenBack(Replay(c)) ==> OverchargePenalty(Replay(c), rates, c.returnDue) == 0.0
    ensures c.WellFormed() ==> NothingTakenBack(Replay(c))
  {
    if c.WellFormed() {
      ReplayHasNoNegativeAmount(c);
      NoNegativeNothingTaken(Replay(c));
    }
    if NothingTakenBack(Replay(c)) {
      NothingTakenNoDay(c, c.returnDue);
      NoOverchargeNoInterest(Replay(c), rates, c.returnDue);
    }
  }

  /** One row per installment from what the ledger holds at the end. */
  method Rows(c: Estimate, rates: RateTable, balance: seq<real>, penalty: seq<real>, segments: seq<seq<Segment>>,
          dates: seq<Option<Date>>) returns (rows: seq<Row>)
    requires c.Shaped() && |c.required| == |c.dueDates|
    requires Final(c, rates, Replay(c), balance, penalty, segments, dates) && RowsAddUp(penalty, segments)
    requires c.WellFormed() ==> IsPlainReplay(c, Replay(c))
    ensures |rows| == |c.required| && forall i :: 0 <= i < |rows| ==> RowCharges(c, rates, i, rows[i])
    ensures Penalties(rows) == penalty
    ensures c.WellFormed() ==> forall i :: 0 <= i < |rows| ==> RowMeans(c, rates, i, rows[i])
  {
    hide *;
    LengthsAtTheEnd(c, rates, Replay(c), balance, penalty, segments, dates);
    SegmentsPerRow(penalty, segments);
    rows := [];
    for i := 0 to |c.required|
      invariant |rows| == i
      invariant forall k :: 0 <= k < i ==> RowCharges(c, rates, k, rows[k]) && rows[k].penalty == penalty[k]
      invariant c.WellFormed() ==> forall k :: 0 <= k < i ==> RowMeans(c, rates, k, rows[k])
    {
      var row := Row(c.dueDates[i], c.required[i], balance[i], dates[i], penalty[i], segments[i]);
      RowIsCharged(c, rates, balance, penalty, segments, dates, i, row);
      if c.WellFormed() { RowIsMeant(c, rates, i, row); }
      rows := rows + [row];
    }
    SamePenalties(rows, penalty);
  }

  lemma SegmentsPerRow(penalty: seq<real>, segments: seq<seq<Segment>>)
    requires RowsAddUp(penalty, segments)
    ensures |segments| == |penalty|
  {
  }

  /**
   * The schedule, for payments of any sign: each row is the interest on its ledger balance, and the total is the
   * interest on the cumulative shortfall and on the overcharge. There is no overcharge when no negative payment takes
   * back, so none without negative amounts, and then each row is what its installment means day by day. The call fails
   * exactly where a rate is needed that the table lacks.
   */
  method PenaltySchedule(c: Estimate, rates: RateTable) returns (r: Result<Schedule, Date>)
    requires c.Shaped() && StepsAtCuts(rates)
    ensures r.Ok? ==> |r.value.rows| == |c.required| && forall i :: 0 <= i < |c.required| ==>
              RowCharges(c, rates, i, r.value.rows[i])
    ensures r.Ok? ==> r.value.total == Sum(Penalties(r.value.rows))
                   == ShortfallPenalty(c, rates, 1, c.returnDue) + OverchargePenalty(Replay(c), rates, c.returnDue)
    ensures r.Ok? ==> RatedWhereOwed(Replay(c), |c.required|, rates, c.returnDue)
    ensures r.Err? ==> UnpricedBalance(Replay(c), |c.required|, rates, r.error, c.returnDue)
    ensures r.Ok? && c.WellFormed() ==> forall i :: 0 <= i < |c.required| ==> RowMeans(c, rates, i, r.value.rows[i])
    ensures NothingTakenBack(Replay(c)) ==> OverchargePenalty(Replay(c), rates, c.returnDue) == 0.0
    ensures c.WellFormed() ==> NothingTakenBack(Replay(c))
    ensures r.Ok? && c.WellFormed() ==> r.value.total == ShortfallPenalty(c, rates, 1, c.returnDue)
    ensures r.Err? && c.WellFormed() ==> Unpriced(c, rates, r.error)
  {
    hide *;
    ChargesTheShortfallAlone(c, rates);
    SortedEventsReplay(c);
    var n := |c.required|;
    var es := Replay(c);
    var ledger := new Ledger(n, rates, c.returnDue);
    ledger.OpenUp();
    StartOfReplay(c, rates, es, ledger.balance, ledger.last, ledger.over, ledger.penalty, ledger.segments,
      ledger.paidDates);
    for j := 0 to |es|
      invariant fresh(ledger) && ledger.Valid() && |ledger.balance| == n && ledger.rates == rates
                  && ledger.returnDue == c.returnDue
      invariant InStep(c, es, j, Clock(es, j), ledger.balance, ledger.last, ledger.over, ledger.book)
      invariant Charged(es, rates, ledger.penalty, Earlier(Clock(es, j), c.returnDue))
      invariant Itemized(c, rates, es, ledger.segments, Earlier(Clock(es, j), c.returnDue))
      invariant AllLastSettled(es, j, ledger.paidDates)
      invariant c.WellFormed() ==> Dated(c, |ledger.book.balance|, Clock(es, j), ledger.balance, ledger.paidDates)
    {
      ledger.OpenUp();
      var e := es[j];
      ghost var penalty, segments, last, balance, dates, over, book :=
        ledger.penalty, ledger.segments, ledger.last, ledger.balance, ledger.paidDates, ledger.over, ledger.book;
      var accrued := ledger.AccrueTo(e.date);
      if accrued.Err? {
        ghost var i :| 0 <= i < n && 0.0 < balance[i]
          && UnratedDay(rates, last[i], Earlier(e.date, c.returnDue), accrued.error);
        ErrorsAreUnpriced(c, rates, es, j, balance, last, over, book, i, accrued.error);
        if c.WellFormed() { PlainError(c, rates, accrued.error); }
        return Err(accrued.error);
      }
      ledger.OpenUp();
      AllAccrue(c, rates, es, j, balance, last, over, book, penalty, ledger.penalty, ledger.last);
      AllItemize(c, rates, es, j, balance, last, over, book, segments, ledger.segments, penalty, ledger.penalty,
        ledger.last);
      if c.WellFormed() { DatesWait(c, es, j, balance, last, over, book, dates); }
      last := ledger.last;
      match e.kind {
        case Due =>
          NextDue(c, es, j, e.date, balance, last, over, book);
          ledger.FallDue(e.date, e.amount, e.idx);
          ledger.OpenUp();
          StepDue(c, es, j, balance, last, over, book, ledger.balance, ledger.over);
          LastDatesDue(c, es, j, balance, last, over, book, dates, ledger.balance, ledger.last, ledger.over,
            ledger.book, ledger.paidDates);
          if c.WellFormed() { DatesDue(c, es, j, balance, last, over, book, dates, ledger.balance, ledger.last,
            ledger.over, ledger.book, ledger.paidDates); }
        case Pay =>
          ledger.Receive(e.date, e.amount);
          ledger.OpenUp();
          AppliedPay(book, e);
          StepPay(c, es, j, balance, last, over, book, ledger.balance, ledger.over, ledger.book);
          LastDatesPay(c, es, j, balance, last, over, book, dates, ledger.balance, ledger.over, ledger.book,
            ledger.paidDates);
          if c.WellFormed() { DatesPay(c, es, j, balance, last, over, book, dates, ledger.balance, ledger.over,
            ledger.book, ledger.paidDates); }
        case End =>
          AppliedEnd(book, e);
          StepPay(c, es, j, balance, last, over, book, balance, over, book);
          LastDatesEnd(c, es, j, balance, last, over, book, dates);
          if c.WellFormed() { DatesEnd(c, es, j, book, balance, dates); }
      }
    }
    ledger.OpenUp();
    ReplayEnds(c, rates, es, ledger.balance, ledger.last, ledger.over, ledger.book, ledger.penalty, ledger.segments,
      ledger.paidDates);
    var rows := Rows(c, rates, ledger.balance, ledger.penalty, ledger.segments, ledger.paidDates);
    LengthsAtTheEnd(c, rates, es, ledger.balance, ledger.penalty, ledger.segments, ledger.paidDates);
    RowsTotal(c, rates, rows);
    if c.WellFormed() { TotalIsTheShortfall(c, rates, rows); }
    return Ok(Schedule(rows, Sum(ledger.penalty)));
  }

  lemma LengthsAtTheEnd(c: Estimate, rates: RateTable, es: seq<Event>, balance: seq<real>, penalty: seq<real>,
          segments: seq<seq<Segment>>, dates: seq<Option<Date>>)
    requires |c.required| == |c.dueDates| && Final(c, rates, es, balance, penalty, segments, dates)
    ensures |balance| == |dates| == |penalty| == |c.required| && RatedWhereOwed(es, |c.required|, rates, c.returnDue)
  {
  }

  lemma AppliedPay(b: Book, e: Event)
    requires e.kind.Pay?
    ensures Apply(b, e) == WithPayment(b, e.amount)
  {
  }

  lemma AppliedEnd(b: Book, e: Event)
    requires e.kind.End?
    ensures Apply(b, e) == b
  {
  }
}
