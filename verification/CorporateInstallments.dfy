/** Section 6655 corporate installments: the required amounts with first-installment recapture, and their due dates. */
module CorporateInstallments {
  import opened Wrappers
  import opened Calendar
  import opened Amounts

  // ---------- Business days ----------

  /** Monday is 0; day 1 was a Monday. */
  function Weekday(d: Date): int {
    (d + 6) % 7
  }

  predicate Closed(d: Date, holidays: set<Date>) {
    Weekday(d) >= 5 || d in holidays
  }

  /** `r` is the first open day from `d` on. */
  ghost predicate FirstOpen(d: Date, holidays: set<Date>, r: Date) {
    && d <= r && !Closed(r, holidays)
    && forall day: Date :: d <= day < r ==> Closed(day, holidays)
  }

  ghost function Ahead(d: Date, holidays: set<Date>): set<Date> {
    set h | h in holidays && d <= h
  }

  function DaysToMonday(d: Date): nat {
    if Weekday(d) < 5 then 0 else 7 - Weekday(d)
  }

  /** A closed day leaves fewer holidays ahead, or as many and a shorter way to Monday. */
  lemma ClosedDayPasses(d: Date, holidays: set<Date>)
    requires Closed(d, holidays)
    ensures |Ahead(d + 1, holidays)| < |Ahead(d, holidays)|
         || (|Ahead(d + 1, holidays)| == |Ahead(d, holidays)| && DaysToMonday(d + 1) < DaysToMonday(d))
  {
    if d in holidays {
      assert Ahead(d + 1, holidays) == Ahead(d, holidays) - {d};
    } else {
      assert Ahead(d + 1, holidays) == Ahead(d, holidays);
    }
  }

  method NextBusinessDay(d: Date, holidays: set<Date>) returns (r: Date)
    ensures FirstOpen(d, holidays, r)
  {
    r := d;
    while Closed(r, holidays)
      invariant d <= r && forall day: Date :: d <= day < r ==> Closed(day, holidays)
      decreases |Ahead(r, holidays)|, DaysToMonday(r)
    {
      ClosedDayPasses(r, holidays);
      r := r + 1;
    }
  }

  /** Later days never roll to earlier ones; rolling an open day changes nothing. */
  lemma RollingIsMonotone(d: Date, e: Date, holidays: set<Date>, rd: Date, re: Date)
    requires d <= e && FirstOpen(d, holidays, rd) && FirstOpen(e, holidays, re)
    ensures rd <= re && (e <= rd ==> re == rd) && FirstOpen(rd, holidays, rd)
  {
  }

  // ---------- Statutory dates ----------

  function DaysBeforeMonth(y: nat, month: nat): nat
    requires 1 <= month <= 12
  {
    [0, 31, 59, 90, 120, 151, 181, 212, 243, 273, 304, 334][month - 1] +
      if month > 2 && DaysInYear(y) == 366 then 1 else 0
  }

  /** The 15th of the month `months` months after January of the tax year. */
  function Fifteenth(taxYear: nat, months: nat): Date
    requires 1 <= taxYear
  {
    FifteenthOf(taxYear + months / 12, months % 12 + 1)
  }

  function FifteenthOf(y: nat, month: nat): Date
    requires 1 <= y && 1 <= month <= 12
  {
    Dec31(y - 1) + DaysBeforeMonth(y, month) + 15
  }

  lemma {:induction false} LaterMonthIsLater(taxYear: nat, m: nat, n: nat)
    requires 1 <= taxYear && m < n
    ensures Fifteenth(taxYear, m) < Fifteenth(taxYear, n)
  {
    hide *;
    NextMonthIsLater(taxYear, n - 1);
    if m + 1 < n {
      LaterMonthIsLater(taxYear, m, n - 1);
    }
  }

  lemma NextMonthIsLater(taxYear: nat, m: nat)
    requires 1 <= taxYear
    ensures Fifteenth(taxYear, m) < Fifteenth(taxYear, m + 1)
  {
    hide FifteenthOf;
    NextMonth(m);
    FifteenthsGrow(taxYear + m / 12, m % 12 + 1);
  }

  lemma FifteenthsGrow(y: nat, month: nat)
    requires 1 <= y && 1 <= month <= 12
    ensures FifteenthOf(y, month) < if month == 12 then FifteenthOf(y + 1, 1) else FifteenthOf(y, month + 1)
  {
    hide Dec31, DaysBeforeMonth;
    if month == 12 {
      YearLength(y);
      MonthLengths(y, 12);
      FirstMonth(y + 1);
    } else {
      MonthsGrow(y, month);
    }
  }

  lemma NextMonth(m: nat)
    ensures m % 12 == 11 ==> (m + 1) / 12 == m / 12 + 1 && (m + 1) % 12 == 0
    ensures m % 12 < 11 ==> (m + 1) / 12 == m / 12 && (m + 1) % 12 == m % 12 + 1
  {
  }

  lemma FirstMonth(y: nat)
    ensures DaysBeforeMonth(y, 1) == 0
  {
  }

  /** The months have their calendar lengths and fill the year. */
  lemma MonthLengths(y: nat, month: nat)
    requires 1 <= month <= 12
    ensures (if month == 12 then DaysInYear(y) else DaysBeforeMonth(y, month + 1)) - DaysBeforeMonth(y, month) ==
      if month == 2 then DaysInYear(y) - 337 else if month in {4, 6, 9, 11} then 30 else 31
  {
  }

  lemma MonthsGrow(y: nat, month: nat)
    requires 1 <= month < 12
    ensures DaysBeforeMonth(y, month) < DaysBeforeMonth(y, month + 1)
  {
  }

  /** The days of the week follow one another, and Wednesday, April 15, 2026 is one of them. */
  lemma WeekdaysFollow(d: Date)
    ensures Weekday(d + 1) == if Weekday(d) == 6 then 0 else Weekday(d) + 1
    ensures Weekday(739721) == 2
  {
  }

  /** Statutory dates by their ordinals: of the year 2026, and of the fiscal year that begins in July 2026. */
  lemma KnownDates()
    ensures Fifteenth(2026, 3) == 739721 && Fifteenth(2026, 7) == 739843 && Fifteenth(2026, 11) == 739965
    ensures Fifteenth(2026, 6 + 8) == 740055 && Fifteenth(2028, 2) == 740421
  {
    hide Dec31;
    KnownYears();
  }

  lemma KnownYears()
    ensures Dec31(2025) == 739616 && Dec31(2026) == 739981 && Dec31(2027) == 740346
  {
  }

  /** August 15, 2026 is a Saturday: without a holiday it moves to Monday, with one on Monday to Tuesday. */
  lemma SaturdayMoves()
    ensures FirstOpen(739843, {}, 739845) && FirstOpen(739843, {739845}, 739846)
  {
  }

  // ---------- Installments ----------

  /** The month of the taxable year an installment falls in, and its share of the year's payment. */
  datatype Plan = Plan(month: nat, share: real)

  datatype Row = Row(statutory: Date, due: Date, required: real, recapture: real, cumulative: real)

  ghost predicate WellFormed(plan: seq<Plan>) {
    && (forall i :: 0 <= i < |plan| ==> 1 <= plan[i].month && 0.0 <= plan[i].share)
    && (forall i, j :: 0 <= i < j < |plan| ==> plan[i].month < plan[j].month)
  }

  function Portion(share: real, whole: real): real {
    share * whole
  }

  /** The shares of the first `n` installments together. */
  function Shares(plan: seq<Plan>, n: nat): real
    requires n <= |plan|
  {
    if n == 0 then 0.0 else Shares(plan, n - 1) + plan[n - 1].share
  }

  function RequiredAnnualPayment(current: real, prior: Option<real>, large: bool): real {
    if prior.Some? && !large then Min(current, prior.value) else current
  }

  /** What a large corporation may leave out of its first installment. */
  function FirstReduction(plan: seq<Plan>, current: real, prior: Option<real>, large: bool): real {
    if large && prior.Some? && plan != [] then Portion(plan[0].share, current - Min(current, prior.value)) else 0.0
  }

  /**
   * The required amounts through installment `n` are that share of the year's payment, less a reduction not yet
   * recaptured.
   */
  function RequiredThroughInstallment(plan: seq<Plan>, current: real, prior: Option<real>, large: bool, n: nat): real
    requires n <= |plan|
  {
    Portion(Shares(plan, n), RequiredAnnualPayment(current, prior, large)) -
      if n == 1 then FirstReduction(plan, current, prior, large) else 0.0
  }

  ghost predicate RowOk(row: Row, taxYear: nat, startMonth: nat, holidays: set<Date>, p: Plan)
    requires 1 <= taxYear && 1 <= startMonth && 1 <= p.month
  {
    row.statutory == Fifteenth(taxYear, startMonth - 1 + p.month - 1) && FirstOpen(row.statutory, holidays, row.due)
  }

  /** The amounts of installment `i`: what it adds to the closed form, and the reduction it recaptures. */
  ghost predicate AmountsOk(row: Row, plan: seq<Plan>, current: real, prior: Option<real>, large: bool, i: nat)
    requires i < |plan|
  {
    && row.cumulative == RequiredThroughInstallment(plan, current, prior, large, i + 1)
    && row.required == row.cumulative - RequiredThroughInstallment(plan, current, prior, large, i)
    && row.recapture == if i == 1 then FirstReduction(plan, current, prior, large) else 0.0
  }

  lemma NothingRequiredYet(plan: seq<Plan>, current: real, prior: Option<real>, large: bool)
    ensures RequiredThroughInstallment(plan, current, prior, large, 0) == 0.0
  {
  }

  lemma RowIsOk(row: Row, plan: seq<Plan>, taxYear: nat, startMonth: nat, holidays: set<Date>, current: real,
          prior: Option<real>, large: bool, i: nat)
    requires WellFormed(plan) && 1 <= taxYear && 1 <= startMonth && i < |plan|
    requires row.statutory == Fifteenth(taxYear, startMonth - 1 + plan[i].month - 1)
               && FirstOpen(row.statutory, holidays, row.due)
    requires row.cumulative == RequiredThroughInstallment(plan, current, prior, large, i + 1)
    requires row.required == row.cumulative - RequiredThroughInstallment(plan, current, prior, large, i)
    requires row.recapture == if i == 1 then FirstReduction(plan, current, prior, large) else 0.0
    ensures RowOk(row, taxYear, startMonth, holidays, plan[i]) && AmountsOk(row, plan, current, prior, large, i)
  {
  }

  method Installments(plan: seq<Plan>, taxYear: nat, startMonth: nat, holidays: set<Date>, current: real,
          prior: Option<real>, large: bool)
    returns (rows: seq<Row>)
    requires WellFormed(plan) && 1 <= taxYear && 1 <= startMonth
    ensures |rows| == |plan| && forall i :: 0 <= i < |rows| ==> RowOk(rows[i], taxYear, startMonth, holidays, plan[i])
    ensures forall i :: 0 <= i < |rows| ==> AmountsOk(rows[i], plan, current, prior, large, i)
  {
    hide RowOk, AmountsOk, FirstOpen, Fifteenth, RequiredThroughInstallment, FirstReduction;
    NothingRequiredYet(plan, current, prior, large);
    rows := [];
    var recapture, cumulative := 0.0, 0.0;
    for i := 0 to |plan|
      invariant |rows| == i && forall j :: 0 <= j < i ==> RowOk(rows[j], taxYear, startMonth, holidays, plan[j])
      invariant cumulative == RequiredThroughInstallment(plan, current, prior, large, i)
      invariant recapture == if i == 1 then FirstReduction(plan, current, prior, large) else 0.0
      invariant forall j :: 0 <= j < i ==> AmountsOk(rows[j], plan, current, prior, large, j)
    {
      var p := plan[i];
      var statutory := Fifteenth(taxYear, startMonth - 1 + p.month - 1);
      var due := NextBusinessDay(statutory, holidays);
      var cur := Portion(p.share, current);
      var reaches := prior.Some? && (!large || i == 0);
      var base := if reaches then Min(cur, Portion(p.share, prior.value)) else cur;
      var required := base + recapture;
      var thisRecapture := recapture;
      recapture := if large && i == 0 && reaches then Max(0.0, cur - base) else 0.0;
      cumulative := cumulative + required;
      OneInstallment(plan, current, prior, large, i, base, recapture);
      var row := Row(statutory, due, required, thisRecapture, cumulative);
      RowIsOk(row, plan, taxYear, startMonth, holidays, current, prior, large, i);
      rows := rows + [row];
    }
  }

  /** One pass of the loop, in closed form. */
  lemma OneInstallment(plan: seq<Plan>, current: real, prior: Option<real>, large: bool, i: nat, base: real,
          carried: real)
    requires i < |plan| && 0.0 <= plan[i].share
    requires var cur := Portion(plan[i].share, current);
             var reaches := prior.Some? && (!large || i == 0);
             && base == (if reaches then Min(cur, Portion(plan[i].share, prior.value)) else cur)
             && carried == (if large && i == 0 && reaches then Max(0.0, cur - base) else 0.0)
    ensures RequiredThroughInstallment(plan, current, prior, large, i + 1)
         == RequiredThroughInstallment(plan, current, prior, large, i) + base
            + (if i == 1 then FirstReduction(plan, current, prior, large) else 0.0)
    ensures carried == if i == 0 then FirstReduction(plan, current, prior, large) else 0.0
  {
    var share, whole := plan[i].share, RequiredAnnualPayment(current, prior, large);
    ShareMore(Shares(plan, i), share, whole);
    assert i == 0 ==> Portion(Shares(plan, i), whole) == 0.0;
    if prior.Some? {
      ShareOfLesser(share, current, prior.value);
    }
    hide Shares, Portion;
  }

  lemma ShareOfLesser(share: real, a: real, b: real)
    requires 0.0 <= share
    ensures Min(Portion(share, a), Portion(share, b)) == Portion(share, Min(a, b))
    ensures Portion(share, a - Min(a, b)) == Portion(share, a) - Portion(share, Min(a, b)) >= 0.0
  {
    hide Portion;
    ShareDifference(share, a, Min(a, b));
    if b < a {
      ShareOrder(share, b, a);
    } else {
      ShareOrder(share, a, b);
    }
  }

  lemma ShareOrder(share: real, x: real, y: real)
    requires 0.0 <= share && x <= y
    ensures Portion(share, x) <= Portion(share, y)
  {
    LessTimesPrice(x, y, share);
  }

  lemma ShareDifference(share: real, x: real, y: real)
    ensures Portion(share, x - y) == Portion(share, x) - Portion(share, y)
  {
  }

  lemma ShareMore(x: real, share: real, whole: real)
    ensures Portion(x + share, whole) == Portion(x, whole) + Portion(share, whole)
  {
  }

  /**
   * With shares that make up the whole, the installments add up to the required annual payment exactly, except for a
   * large corporation with a single installment and a smaller prior year: it has no second installment to recapture in.
   */
  lemma InstallmentsAddUp(plan: seq<Plan>, current: real, prior: Option<real>, large: bool)
    requires WellFormed(plan) && Shares(plan, |plan|) == 1.0
    ensures RequiredThroughInstallment(plan, current, prior, large, |plan|)
              == RequiredAnnualPayment(current, prior, large)
       <==> !(|plan| == 1 && large && prior.Some? && prior.value < current)
  {
    if |plan| == 1 {
      assert Shares(plan, 1) == Shares(plan, 0) + plan[0].share;
    }
  }

  /** Installments fall due in order, whatever the month the taxable year starts in and the holidays. */
  lemma DueDatesInOrder(plan: seq<Plan>, taxYear: nat, startMonth: nat, holidays: set<Date>, rows: seq<Row>, i: nat,
          j: nat)
    requires WellFormed(plan) && 1 <= taxYear && 1 <= startMonth && i <= j < |rows| == |plan|
    requires forall k :: 0 <= k < |rows| ==> RowOk(rows[k], taxYear, startMonth, holidays, plan[k])
    ensures rows[i].due <= rows[j].due
  {
    hide Fifteenth, FirstOpen;
    assert RowOk(rows[i], taxYear, startMonth, holidays, plan[i])
             && RowOk(rows[j], taxYear, startMonth, holidays, plan[j]);
    if i < j {
      LaterMonthIsLater(taxYear, startMonth - 1 + plan[i].month - 1, startMonth - 1 + plan[j].month - 1);
    }
    RollingIsMonotone(rows[i].statutory, rows[j].statutory, holidays, rows[i].due, rows[j].due);
  }
}
