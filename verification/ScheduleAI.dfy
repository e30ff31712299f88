/** Form 2210 Schedule AI: the annualized income installments, with recapture, and the Part II self-employment tax. */
module ScheduleAI {
  import opened Wrappers
  import opened Calendar
  import opened UnderpaymentInterest
  import opened Amounts
  import opened Estimate

  // ---------- Lines 22 to 27 ----------

  /** One column: line 23, the annualized installment; line 26, the regular one with recapture; line 27, the smaller. */
  datatype Column = Column(line23: real, line26: real, line27: real)

  function Line27s(columns: seq<Column>): seq<real> {
    seq(|columns|, i requires 0 <= i < |columns| => columns[i].line27)
  }

  /** `k` regular installments. */
  function Regular(line24: real, k: nat): real {
    if k == 0 then 0.0 else Regular(line24, k - 1) + line24
  }

  lemma {:induction false} RegularIsProduct(line24: real, k: nat)
    ensures Regular(line24, k) == k as real * line24
  {
    if k > 0 {
      RegularIsProduct(line24, k - 1);
      assert (k as real) * line24 == ((k - 1) as real + 1.0) * line24;
    }
  }

  /**
   * What is required through column `k`: the most that any column so far asks for, each column asking for its
   * annualized amount but for no more than the regular installments through it.
   */
  function RequiredThroughColumn(line21: seq<real>, line24: real, k: nat): real
    requires k <= |line21|
  {
    if k == 0 then 0.0
    else Max(RequiredThroughColumn(line21, line24, k - 1), Min(line21[k - 1], Regular(line24, k)))
  }

  /** Every column as the form figures it, and the cumulative amounts after it. */
  ghost predicate ColumnsOk(line21: seq<real>, line24: real, columns: seq<Column>) {
    && |columns| <= |line21|
    && forall k :: 0 <= k <= |columns| ==> ThroughColumn(line21, line24, columns[..k])
  }

  ghost predicate ThroughColumn(line21: seq<real>, line24: real, columns: seq<Column>)
    requires |columns| <= |line21|
  {
    var k := |columns|;
    && Sum(Line27s(columns)) == RequiredThroughColumn(line21, line24, k)
    && (k > 0 ==> ColumnOk(line21[k - 1], line24, k - 1, Sum(Line27s(columns[..k - 1])), columns[k - 1]))
  }

  predicate ColumnOk(line21: real, line24: real, i: nat, line22: real, c: Column) {
    && c.line23 == Max(0.0, line21 - line22)
    && c.line26 == Regular(line24, i + 1) - line22
    && 0.0 <= c.line27 == Min(c.line23, c.line26)
  }

  /** The loop over the columns. `line21` are the annualized required amounts, `line24` the regular installment. */
  method Columns(line21: seq<real>, line24: real) returns (columns: seq<Column>)
    requires 0.0 <= line24
    ensures |columns| == |line21| && ColumnsOk(line21, line24, columns)
  {
    hide *;
    columns := [];
    var cum27, prev26, prev27 := 0.0, None, 0.0;
    NoColumns(line21, line24);
    for i := 0 to |line21|
      invariant |columns| == i && ColumnsOk(line21, line24, columns)
      invariant cum27 == RequiredThroughColumn(line21, line24, i)
      invariant prev26.None? <==> i == 0
      invariant i == 0 ==> cum27 == 0.0 == Regular(line24, 0)
      invariant prev26.Some? ==> prev26.value - prev27 == Regular(line24, i) - cum27
    {
      var line22 := cum27;
      var line23 := Max(0.0, line21[i] - line22);
      var line25 := if prev26.None? then 0.0 else prev26.value - prev27;
      var line26 := line24 + line25;
      var line27 := Min(line23, line26);
      AppendColumn(line21, line24, columns, Column(line23, line26, line27));
      columns := columns + [Column(line23, line26, line27)];
      cum27, prev26, prev27 := cum27 + line27, Some(line26), line27;
    }
  }

  lemma NoColumns(line21: seq<real>, line24: real)
    ensures ColumnsOk(line21, line24, []) && RequiredThroughColumn(line21, line24, 0) == 0.0
              && Regular(line24, 0) == 0.0
  {
  }

  lemma AppendColumn(line21: seq<real>, line24: real, columns: seq<Column>, c: Column)
    requires 0.0 <= line24 && |columns| < |line21| && ColumnsOk(line21, line24, columns)
    requires var line22 := RequiredThroughColumn(line21, line24, |columns|);
             && c.line23 == Max(0.0, line21[|columns|] - line22)
             && c.line26 == line24 + (Regular(line24, |columns|) - line22)
             && c.line27 == Min(c.line23, c.line26)
    ensures ColumnsOk(line21, line24, columns + [c])
    ensures RequiredThroughColumn(line21, line24, |columns| + 1)
              == RequiredThroughColumn(line21, line24, |columns|) + c.line27
    ensures c.line26 == Regular(line24, |columns| + 1) - RequiredThroughColumn(line21, line24, |columns|)
  {
    hide *;
    var n := |columns|;
    SoFar(line21, line24, columns);
    BelowTheRegularSchedule(line21, line24, n);
    NextColumn(line21, line24, n, c);
    AppendLine27(columns, c);
    ThroughNext(line21, line24, columns, c);
    GrowColumns(line21, line24, columns, c);
  }

  lemma SoFar(line21: seq<real>, line24: real, columns: seq<Column>)
    requires ColumnsOk(line21, line24, columns)
    ensures |columns| <= |line21| && ThroughColumn(line21, line24, columns)
    ensures Sum(Line27s(columns)) == RequiredThroughColumn(line21, line24, |columns|)
  {
    assert columns[..|columns|] == columns;
    hide Sum, Line27s, RequiredThroughColumn;
  }

  lemma ThroughNext(line21: seq<real>, line24: real, columns: seq<Column>, c: Column)
    requires |columns| < |line21|
    requires Sum(Line27s(columns + [c])) == RequiredThroughColumn(line21, line24, |columns| + 1)
    requires ColumnOk(line21[|columns|], line24, |columns|, Sum(Line27s(columns)), c)
    ensures ThroughColumn(line21, line24, columns + [c])
  {
    hide Sum, Line27s, RequiredThroughColumn, ColumnOk;
    assert (columns + [c])[..|columns|] == columns;
  }

  lemma GrowColumns(line21: seq<real>, line24: real, columns: seq<Column>, c: Column)
    requires |columns| < |line21| && ColumnsOk(line21, line24, columns) && ThroughColumn(line21, line24, columns + [c])
    ensures ColumnsOk(line21, line24, columns + [c])
  {
    hide ThroughColumn;
    var n, all := |columns|, columns + [c];
    forall k | 0 <= k <= n + 1 ensures ThroughColumn(line21, line24, all[..k]) {
      if k <= n {
        assert all[..k] == columns[..k];
      } else {
        assert all[..k] == all;
      }
    }
  }

  lemma AppendLine27(columns: seq<Column>, c: Column)
    ensures Sum(Line27s(columns + [c])) == Sum(Line27s(columns)) + c.line27
  {
    var all := Line27s(columns + [c]);
    assert all[..|columns|] == Line27s(columns);
  }

  lemma NextColumn(line21: seq<real>, line24: real, n: nat, c: Column)
    requires 0.0 <= line24 && n < |line21|
    requires 0.0 <= RequiredThroughColumn(line21, line24, n) <= Regular(line24, n)
    requires var line22 := RequiredThroughColumn(line21, line24, n);
             && c.line23 == Max(0.0, line21[n] - line22)
             && c.line26 == line24 + (Regular(line24, n) - line22)
             && c.line27 == Min(c.line23, c.line26)
    ensures ColumnOk(line21[n], line24, n, RequiredThroughColumn(line21, line24, n), c)
    ensures RequiredThroughColumn(line21, line24, n + 1) == RequiredThroughColumn(line21, line24, n) + c.line27
    ensures c.line26 == Regular(line24, n + 1) - RequiredThroughColumn(line21, line24, n)
  {
  }

  /** Required amounts are between zero and the regular schedule and never fall from column to column. */
  lemma {:induction false} BelowTheRegularSchedule(line21: seq<real>, line24: real, k: nat)
    requires 0.0 <= line24 && k <= |line21|
    ensures 0.0 <= RequiredThroughColumn(line21, line24, k) <= Regular(line24, k)
    ensures k > 0 ==> RequiredThroughColumn(line21, line24, k - 1) <= RequiredThroughColumn(line21, line24, k)
  {
    if k > 0 {
      BelowTheRegularSchedule(line21, line24, k - 1);
    }
  }

  /** The whole required annual payment is recaptured exactly when the last column's annualized amount reaches it. */
  lemma FullRecapture(line21: seq<real>, line24: real, requiredAnnualPayment: real)
    requires line21 != [] && 0.0 < requiredAnnualPayment && line24 == requiredAnnualPayment / |line21| as real
    ensures RequiredThroughColumn(line21, line24, |line21|) == requiredAnnualPayment
       <==> requiredAnnualPayment <= line21[|line21| - 1]
    ensures Sum(Annualized(line21, line24)) == RequiredThroughColumn(line21, line24, |line21|)
  {
    hide *;
    var n := |line21|;
    AnnualizedAddsUp(line21, line24);
    Share(requiredAnnualPayment, n as real);
    RegularIsProduct(line24, n);
    LastColumn(line21, line24);
  }

  lemma AnnualizedAddsUp(line21: seq<real>, line24: real)
    ensures Sum(Annualized(line21, line24)) == RequiredThroughColumn(line21, line24, |line21|)
  {
    hide Sum, RequiredThroughColumn;
    AnnualizedSum(line21, line24, |line21|);
    assert Annualized(line21, line24)[..|line21|] == Annualized(line21, line24);
  }

  lemma LastColumn(line21: seq<real>, line24: real)
    requires line21 != [] && 0.0 < line24
    ensures var n := |line21|;
            RequiredThroughColumn(line21, line24, n) == Regular(line24, n) <==> Regular(line24, n) <= line21[n - 1]
  {
    BelowTheRegularSchedule(line21, line24, |line21| - 1);
  }

  lemma Share(whole: real, parts: real)
    requires 0.0 < whole && 0.0 < parts
    ensures parts * (whole / parts) == whole && 0.0 < whole / parts
  {
  }

  // ---------- Annualizing and the penalty ----------

  /** The installments of Schedule AI as an estimate's required amounts. */
  function Annualized(line21: seq<real>, line24: real): seq<real> {
    seq(|line21|, i requires 0 <= i < |line21| =>
      RequiredThroughColumn(line21, line24, i + 1) - RequiredThroughColumn(line21, line24, i))
  }

  lemma {:induction false} AnnualizedSum(line21: seq<real>, line24: real, k: nat)
    requires k <= |line21|
    ensures Sum(Annualized(line21, line24)[..k]) == RequiredThroughColumn(line21, line24, k)
  {
    if k > 0 {
      AnnualizedSum(line21, line24, k - 1);
      assert Annualized(line21, line24)[..k][..k - 1] == Annualized(line21, line24)[..k - 1];
    }
  }

  /** On every day Schedule AI requires no more than the regular installments on the same due dates. */
  lemma {:induction false} AnnualizedRequiresNoMore(line21: seq<real>, line24: real, dueDates: seq<Date>, k: nat,
          d: Date)
    requires 0.0 <= line24 && k <= |line21| == |dueDates|
    requires forall i, j :: 0 <= i < j < |dueDates| ==> dueDates[i] <= dueDates[j]
    ensures var regular := seq(|line21|, _ => line24);
            RequiredThrough(Annualized(line21, line24)[..k], dueDates[..k], d) <= RequiredThrough(regular[..k],
              dueDates[..k], d)
    ensures var regular := seq(|line21|, _ => line24);
            (forall i :: 0 <= i < k ==> dueDates[i] <= d) ==>
              && RequiredThrough(Annualized(line21, line24)[..k], dueDates[..k], d)
                   == RequiredThroughColumn(line21, line24, k)
              && RequiredThrough(regular[..k], dueDates[..k], d) == Regular(line24, k)
  {
    if k > 0 {
      var regular := seq(|line21|, _ => line24);
      AnnualizedRequiresNoMore(line21, line24, dueDates, k - 1, d);
      BelowTheRegularSchedule(line21, line24, k);
      assert Annualized(line21, line24)[..k][..k - 1] == Annualized(line21, line24)[..k - 1];
      assert regular[..k][..k - 1] == regular[..k - 1];
      assert dueDates[..k][..k - 1] == dueDates[..k - 1];
    }
  }

  /** With the same payments, paying by Schedule AI is never penalized more than paying by regular installments. */
  lemma {:induction false} AnnualizingNeverCostsMore(line21: seq<real>, line24: real, regular: Estimate,
          rates: RateTable, e: Date)
    requires regular.WellFormed() && regular.required == seq(|line21|, _ => line24) && 0.0 <= line24
    requires forall p :: p in rates ==> 0.0 <= p.rate
    ensures ShortfallPenalty(regular.(required := Annualized(line21, line24)), rates, 1, e) <= ShortfallPenalty(regular,
              rates, 1, e)
    decreases e
  {
    hide DayPrice, RequiredThrough, PaidThrough;
    if 1 < e {
      AnnualizingNeverCostsMore(line21, line24, regular, rates, e - 1);
      var annualized := regular.(required := Annualized(line21, line24));
      var n, d := |line21|, e - 1;
      AnnualizedRequiresNoMore(line21, line24, regular.dueDates, n, d);
      assert annualized.required[..n] == annualized.required && regular.required[..n] == regular.required;
      assert regular.dueDates[..n] == regular.dueDates;
      DayPriceNonNegative(rates, d);
      SamePayments(regular, annualized.required, d);
      LessTimesPrice(ShortfallOn(annualized, d), ShortfallOn(regular, d), DayPrice(rates, d));
    }
  }

  lemma SamePayments(c: Estimate, required: seq<real>, d: Date)
    requires |c.required| == |c.dueDates| == |required|
    ensures PaidThrough(c.(required := required), d) == PaidThrough(c, d)
  {
  }
}
