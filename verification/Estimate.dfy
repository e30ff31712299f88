/**
 * What a section 6654 estimate is about, day by day: the installments, the payments, and the part of each
 * installment that is unpaid on a day when every payment goes to the earliest unpaid installment.
 */
module Estimate {
  import opened Amounts
  import opened Calendar
  import opened UnderpaymentInterest

  function Sum(xs: seq<real>): real {
    if xs == [] then 0.0 else Sum(xs[..|xs| - 1]) + xs[|xs| - 1]
  }

  ghost predicate NonNegative(xs: seq<real>) {
    forall i :: 0 <= i < |xs| ==> 0.0 <= xs[i]
  }

  datatype Payment = Payment(date: Date, amount: real)

  datatype Estimate = Estimate(required: seq<real>, dueDates: seq<Date>, withholding: real, payments: seq<Payment>,
        returnDue: Date) {
    /** One due date per installment, in order, and no negative installment. */
    ghost predicate Shaped() {
      && |required| == |dueDates|
      && NonNegative(required)
      && (forall i, j :: 0 <= i < j < |dueDates| ==> dueDates[i] <= dueDates[j])
    }

    /** No negative withholding or payment either. */
    ghost predicate WellFormed() {
      && Shaped()
      && 0.0 <= withholding
      && (forall i :: 0 <= i < |payments| ==> 0.0 <= payments[i].amount)
    }
  }

  /** Required amounts due on or before day `d`. */
  function RequiredThrough(required: seq<real>, dueDates: seq<Date>, d: Date): real
    requires |required| == |dueDates|
  {
    var n := |required|;
    if n == 0 then 0.0
    else
      RequiredThrough(required[..n - 1], dueDates[..n - 1], d)
      + if dueDates[n - 1] <= d then required[n - 1] else 0.0
  }

  /** Withholding counted on the due dates up to day `d`. */
  function WithheldThrough(dueDates: seq<Date>, withholding: real, d: Date): real {
    if dueDates == [] then 0.0
    else (if dueDates[0] <= d then withholding else 0.0) + WithheldThrough(dueDates[1..], withholding, d)
  }

  /** Estimated payments dated on or before day `d`. */
  function EstimatedThrough(payments: seq<Payment>, d: Date): real {
    if payments == [] then 0.0
    else (if payments[0].date <= d then payments[0].amount else 0.0) + EstimatedThrough(payments[1..], d)
  }

  function PaidThrough(c: Estimate, d: Date): real {
    WithheldThrough(c.dueDates, c.withholding, d) + EstimatedThrough(c.payments, d)
  }

  /** The unpaid part of installment `i` once `paid` has gone to the earliest installments. */
  function Unpaid(required: seq<real>, i: nat, paid: real): real
    requires i < |required|
  {
    Max(0.0, Min(required[i], Sum(required[..i + 1]) - paid))
  }

  function UnpaidOn(c: Estimate, i: nat, d: Date): real
    requires i < |c.required| == |c.dueDates|
  {
    if d < c.dueDates[i] then 0.0 else Unpaid(c.required, i, PaidThrough(c, d))
  }

  function ShortfallOn(c: Estimate, d: Date): real
    requires |c.required| == |c.dueDates|
  {
    Max(0.0, RequiredThrough(c.required, c.dueDates, d) - PaidThrough(c, d))
  }

  /** Interest on installment `i` over the days before `e`. */
  function InstallmentPenalty(c: Estimate, rates: RateTable, i: nat, e: Date): real
    requires i < |c.required| == |c.dueDates|
    decreases e
  {
    if e == 1 then 0.0 else InstallmentPenalty(c, rates, i, e - 1) + UnpaidOn(c, i, e - 1) * DayPrice(rates, e - 1)
  }

  /** Interest on the cumulative shortfall over the days from `s` to `e`: no allocation to installments. */
  function ShortfallPenalty(c: Estimate, rates: RateTable, s: Date, e: Date): real
    requires |c.required| == |c.dueDates|
    decreases e - s
  {
    if e <= s then 0.0 else ShortfallPenalty(c, rates, s, e - 1) + ShortfallOn(c, e - 1) * DayPrice(rates, e - 1)
  }

  // ---------- Allocation to the earliest installment never changes the total ----------

  lemma {:induction false} SumMonotone(xs: seq<real>, i: nat, j: nat)
    requires i <= j <= |xs| && NonNegative(xs)
    ensures Sum(xs[..i]) <= Sum(xs[..j])
    decreases j - i
  {
    if i < j {
      SumMonotone(xs, i, j - 1);
      assert xs[..j][..j - 1] == xs[..j - 1];
    }
  }

  function UnpaidOnAll(c: Estimate, k: nat, d: Date): seq<real>
    requires k <= |c.required| == |c.dueDates|
  {
    seq(k, i requires 0 <= i < k => UnpaidOn(c, i, d))
  }

  lemma {:induction false} PaidThroughNonNegative(c: Estimate, d: Date)
    requires c.WellFormed()
    ensures 0.0 <= PaidThrough(c, d)
  {
    WithheldNonNegative(c.dueDates, c.withholding, d);
    EstimatedNonNegative(c.payments, d);
  }

  lemma WithheldNonNegative(dueDates: seq<Date>, withholding: real, d: Date)
    requires 0.0 <= withholding
    ensures 0.0 <= WithheldThrough(dueDates, withholding, d)
  {
  }

  lemma EstimatedNonNegative(payments: seq<Payment>, d: Date)
    requires forall i :: 0 <= i < |payments| ==> 0.0 <= payments[i].amount
    ensures 0.0 <= EstimatedThrough(payments, d)
  {
  }

  /** The first `k` installments on day `d`: those not yet due count for nothing on either side. */
  lemma {:induction false} PartsMakeTheShortfall(c: Estimate, k: nat, d: Date)
    requires c.WellFormed() && k <= |c.required|
    ensures Sum(UnpaidOnAll(c, k, d))
              == Max(0.0, RequiredThrough(c.required[..k], c.dueDates[..k], d) - PaidThrough(c, d))
    ensures (forall i :: 0 <= i < k ==> c.dueDates[i] <= d) ==>
              RequiredThrough(c.required[..k], c.dueDates[..k], d) == Sum(c.required[..k])
  {
    hide PaidThrough, RequiredThrough, UnpaidOn;
    PaidThroughNonNegative(c, d);
    if k == 0 {
      NoInstallments(c, d);
    } else {
      PartsMakeTheShortfall(c, k - 1, d);
      assert UnpaidOnAll(c, k, d)[..k - 1] == UnpaidOnAll(c, k - 1, d);
      OneMoreRequired(c, k, d);
      OneMorePart(c, k, d);
    }
  }

  lemma NoInstallments(c: Estimate, d: Date)
    requires |c.required| == |c.dueDates|
    ensures RequiredThrough(c.required[..0], c.dueDates[..0], d) == 0.0 == Sum(c.required[..0])
  {
  }

  lemma OneMoreRequired(c: Estimate, k: nat, d: Date)
    requires 0 < k <= |c.required| == |c.dueDates|
    ensures RequiredThrough(c.required[..k], c.dueDates[..k], d)
         == RequiredThrough(c.required[..k - 1], c.dueDates[..k - 1], d)
            + if c.dueDates[k - 1] <= d then c.required[k - 1] else 0.0
    ensures Sum(c.required[..k]) == Sum(c.required[..k - 1]) + c.required[k - 1]
  {
    assert c.required[..k][..k - 1] == c.required[..k - 1];
    assert c.dueDates[..k][..k - 1] == c.dueDates[..k - 1];
  }

  /** The unpaid part of an installment is what it adds to the part of the cumulative amount that is not covered. */
  lemma OneMorePart(c: Estimate, k: nat, d: Date)
    requires 0 < k <= |c.required| == |c.dueDates| && 0.0 <= PaidThrough(c, d) && 0.0 <= c.required[k - 1]
    ensures var before, required, paid := Sum(c.required[..k - 1]), c.required[k - 1], PaidThrough(c, d);
            UnpaidOn(c, k - 1, d) ==
              if d < c.dueDates[k - 1] then 0.0 else Max(0.0, before + required - paid) - Max(0.0, before - paid)
  {
    hide PaidThrough;
    OneMoreRequired(c, k, d);
  }

  function InstallmentPenalties(c: Estimate, rates: RateTable, k: nat, e: Date): seq<real>
    requires k <= |c.required| == |c.dueDates|
  {
    seq(k, i requires 0 <= i < k => InstallmentPenalty(c, rates, i, e))
  }

  lemma {:induction false} OneDayOfAll(c: Estimate, rates: RateTable, k: nat, e: Date)
    requires 1 < e && k <= |c.required| == |c.dueDates|
    ensures Sum(InstallmentPenalties(c, rates, k, e))
         == Sum(InstallmentPenalties(c, rates, k, e - 1)) + Cost(Sum(UnpaidOnAll(c, k, e - 1)), DayPrice(rates, e - 1))
  {
    hide DayPrice, UnpaidOn, InstallmentPenalty, Cost;
    if k == 0 {
      CostOfNothing(DayPrice(rates, e - 1));
    } else {
      OneDayOfAll(c, rates, k - 1, e);
      OneMoreDay(c, rates, k - 1, e);
      CostOfASum(Sum(UnpaidOnAll(c, k - 1, e - 1)), UnpaidOn(c, k - 1, e - 1), DayPrice(rates, e - 1));
      assert InstallmentPenalties(c, rates, k, e)[..k - 1] == InstallmentPenalties(c, rates, k - 1, e);
      assert InstallmentPenalties(c, rates, k, e - 1)[..k - 1] == InstallmentPenalties(c, rates, k - 1, e - 1);
      assert UnpaidOnAll(c, k, e - 1)[..k - 1] == UnpaidOnAll(c, k - 1, e - 1);
    }
  }

  lemma OneMoreDay(c: Estimate, rates: RateTable, i: nat, e: Date)
    requires 1 < e && i < |c.required| == |c.dueDates|
    ensures InstallmentPenalty(c, rates, i, e)
         == InstallmentPenalty(c, rates, i, e - 1) + Cost(UnpaidOn(c, i, e - 1), DayPrice(rates, e - 1))
  {
    hide UnpaidOn, DayPrice;
  }

  lemma OneMoreDayShort(c: Estimate, rates: RateTable, e: Date)
    requires 1 < e && |c.required| == |c.dueDates|
    ensures ShortfallPenalty(c, rates, 1, e)
         == ShortfallPenalty(c, rates, 1, e - 1) + Cost(ShortfallOn(c, e - 1), DayPrice(rates, e - 1))
  {
    hide ShortfallOn, DayPrice;
  }

  lemma {:induction false} ZeroSum(xs: seq<real>)
    requires forall i :: 0 <= i < |xs| ==> xs[i] == 0.0
    ensures Sum(xs) == 0.0
  {
    if xs != [] {
      ZeroSum(xs[..|xs| - 1]);
    }
  }

  /** Paying the earliest installment first moves interest between installments, never the total. */
  lemma {:induction false} AllocationKeepsTheTotal(c: Estimate, rates: RateTable, e: Date)
    requires c.WellFormed()
    ensures Sum(InstallmentPenalties(c, rates, |c.required|, e)) == ShortfallPenalty(c, rates, 1, e)
    decreases e
  {
    hide DayPrice, UnpaidOn, InstallmentPenalty, ShortfallPenalty, ShortfallOn, Sum, Cost;
    var n := |c.required|;
    if e == 1 {
      NothingOnTheFirstDay(c, rates);
    } else {
      AllocationKeepsTheTotal(c, rates, e - 1);
      OneDayOfAll(c, rates, n, e);
      OneMoreDayShort(c, rates, e);
      ShortfallOfTheDay(c, e - 1);
    }
  }

  lemma NothingOnTheFirstDay(c: Estimate, rates: RateTable)
    requires |c.required| == |c.dueDates|
    ensures Sum(InstallmentPenalties(c, rates, |c.required|, 1)) == ShortfallPenalty(c, rates, 1, 1)
  {
    ZeroSum(InstallmentPenalties(c, rates, |c.required|, 1));
  }

  lemma ShortfallOfTheDay(c: Estimate, d: Date)
    requires c.WellFormed()
    ensures Sum(UnpaidOnAll(c, |c.required|, d)) == ShortfallOn(c, d)
  {
    hide UnpaidOn, RequiredThrough, PaidThrough, Sum;
    var n := |c.required|;
    PartsMakeTheShortfall(c, n, d);
    assert c.required[..n] == c.required && c.dueDates[..n] == c.dueDates;
  }

  /** Nothing accrues before the first due date. */
  lemma {:induction false} NothingBeforeTheFirstDueDate(c: Estimate, rates: RateTable, s: Date, e: Date)
    requires c.WellFormed() && s <= e
    requires forall i :: 0 <= i < |c.dueDates| ==> s <= c.dueDates[i]
    ensures ShortfallPenalty(c, rates, 1, e) == ShortfallPenalty(c, rates, s, e)
    decreases e
  {
    if s < e {
      NothingBeforeTheFirstDueDate(c, rates, s, e - 1);
    } else if 1 < e {
      NothingBeforeTheFirstDueDate(c, rates, s - 1, e - 1);
      NothingDue(c.required, c.dueDates, e - 1);
      PaidThroughNonNegative(c, e - 1);
    }
  }

  lemma {:induction false} NothingDue(required: seq<real>, dueDates: seq<Date>, d: Date)
    requires |required| == |dueDates| && forall i :: 0 <= i < |dueDates| ==> d < dueDates[i]
    ensures RequiredThrough(required, dueDates, d) == 0.0
  {
    var n := |required|;
    if n > 0 {
      NothingDue(required[..n - 1], dueDates[..n - 1], d);
    }
  }

  // ---------- Consequences for the taxpayer ----------

  /** The payer of `a` has paid at least as much as the payer of `b` by every date before the return is due. */
  ghost predicate PaysNoLater(a: Estimate, b: Estimate) {
    forall d: Date :: d < b.returnDue ==> PaidThrough(b, d) <= PaidThrough(a, d)
  }

  ghost predicate SameInstallments(a: Estimate, b: Estimate) {
    a.required == b.required && a.dueDates == b.dueDates && a.returnDue == b.returnDue
  }

  /** Paying no later, and no less, never raises the penalty. */
  lemma {:induction false} PaymentDominance(a: Estimate, b: Estimate, rates: RateTable, e: Date)
    requires a.WellFormed() && b.WellFormed() && SameInstallments(a, b) && PaysNoLater(a, b) && e <= b.returnDue
    requires forall p :: p in rates ==> 0.0 <= p.rate
    ensures ShortfallPenalty(a, rates, 1, e) <= ShortfallPenalty(b, rates, 1, e)
    decreases e
  {
    hide DayPrice, RateOn, PaidThrough, RequiredThrough;
    if 1 < e {
      PaymentDominance(a, b, rates, e - 1);
      DayPriceNonNegative(rates, e - 1);
      assert PaidThrough(b, e - 1) <= PaidThrough(a, e - 1);
      LessTimesPrice(ShortfallOn(a, e - 1), ShortfallOn(b, e - 1), DayPrice(rates, e - 1));
    }
  }

  lemma {:induction false} DayPriceNonNegative(rates: RateTable, d: Date)
    requires forall p :: p in rates ==> 0.0 <= p.rate
    ensures 0.0 <= DayPrice(rates, d)
  {
    RateOnFinds(rates, d + 1);
  }

  lemma {:induction false} LatePaymentsNotCounted(payments: seq<Payment>, extra: seq<Payment>, d: Date)
    requires forall i :: 0 <= i < |extra| ==> d < extra[i].date
    ensures EstimatedThrough(payments + extra, d) == EstimatedThrough(payments, d)
  {
    if payments != [] {
      assert (payments + extra)[1..] == payments[1..] + extra;
      LatePaymentsNotCounted(payments[1..], extra, d);
    } else if extra != [] {
      assert payments + extra == extra;
      LatePaymentsNotCounted([], extra[1..], d);
      assert [] + extra[1..] == extra[1..];
    }
  }

  /** Payments dated on or after the return due date change no penalty. */
  lemma {:induction false} LatePaymentsChangeNothing(c: Estimate, extra: seq<Payment>, rates: RateTable, i: nat,
          e: Date)
    requires c.WellFormed() && i < |c.required| && e <= c.returnDue
    requires forall j :: 0 <= j < |extra| ==> c.returnDue <= extra[j].date
    ensures InstallmentPenalty(c.(payments := c.payments + extra), rates, i, e) == InstallmentPenalty(c, rates, i, e)
    decreases e
  {
    hide DayPrice, Unpaid, EstimatedThrough, WithheldThrough;
    if 1 < e {
      var later := c.(payments := c.payments + extra);
      LatePaymentsChangeNothing(c, extra, rates, i, e - 1);
      LatePaymentsNotCounted(c.payments, extra, e - 1);
      assert UnpaidOn(later, i, e - 1) == UnpaidOn(c, i, e - 1);
      hide UnpaidOn;
    }
  }
}
