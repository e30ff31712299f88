/**
 * Graduated tax schedules in the two encodings of the tax oracle: brackets given by their upper ends
 * (`bracket_tax`) and brackets given by their lower ends (`marginal`).
 */
module BracketTax {
  import opened Amounts
  import opened Wrappers

  /** Rate `rate` on income above `from`, up to the next step. */
  datatype Step = Step(from: real, rate: real)

  /** Rate `rate` on income up to `to`, from the previous bracket's end; `None` is no upper end. */
  datatype Bracket = Bracket(to: Option<real>, rate: real)

  ghost predicate Ordered(s: seq<Step>) {
    forall i, j :: 0 <= i < j < |s| ==> s[i].from <= s[j].from
  }

  ghost predicate Progressive(s: seq<Step>) {
    && (forall i :: 0 <= i < |s| ==> 0.0 <= s[i].rate)
    && (forall i, j :: 0 <= i < j < |s| ==> s[i].rate <= s[j].rate)
  }

  /** The part of `x` that lies above `from` and not above `to`. */
  function Slice(x: real, from: real, to: Option<real>): real {
    if to.Some? then Between(x, from, to.value) else Above(x, from)
  }

  function Above(x: real, from: real): real {
    Max(0.0, x - from)
  }

  function Between(x: real, from: real, to: real): real {
    Above(Min(x, to), from)
  }

  function Next(s: seq<Step>): Option<real>
    requires s != []
  {
    if |s| > 1 then Some(s[1].from) else None
  }

  /** `amount` taxed at `rate`. */
  function At(amount: real, rate: real): real {
    amount * rate
  }

  /** The schedule's tax on `x`: each slice at its rate. */
  function Tax(s: seq<Step>, x: real): real {
    if s == [] then 0.0 else At(Slice(x, s[0].from, Next(s)), s[0].rate) + Tax(s[1..], x)
  }

  lemma {:induction false} NothingBelow(s: seq<Step>, x: real)
    requires Ordered(s) && (s != [] ==> x <= s[0].from)
    ensures Tax(s, x) == 0.0
  {
    if s != [] {
      assert |s| > 1 ==> s[0].from <= s[1].from;
      NothingBelow(s[1..], x);
    }
  }

  /** The first step's part of the tax, as both loops compute it. */
  lemma TaxHead(s: seq<Step>, x: real)
    requires s != [] && Ordered(s)
    ensures Ordered(s[1..])
    ensures x <= s[0].from ==> Tax(s, x) == 0.0 == Tax(s[1..], x)
    ensures s[0].from < x ==>
              Tax(s, x)
              == At((if Next(s).Some? then Min(x, Next(s).value) else x) - s[0].from, s[0].rate) + Tax(s[1..], x)
  {
    hide At;
    assert |s| > 1 ==> s[0].from <= s[1].from;
    if x <= s[0].from {
      NothingBelow(s, x);
      NothingBelow(s[1..], x);
    }
  }

  /** `marginal`: stops at the first step that starts at or above `x`. */
  method Marginal(x: real, s: seq<Step>) returns (t: real)
    requires Ordered(s)
    ensures t == Tax(s, x)
  {
    hide *;
    t := 0.0;
    assert s[0..] == s;
    NoSteps(x);
    for i := 0 to |s|
      invariant Ordered(s[i..])
      invariant t + Tax(s[i..], x) == Tax(s, x)
    {
      var hi := if i + 1 < |s| then Some(s[i + 1].from) else None;
      assert s[i..][1..] == s[i + 1..];
      NextIs(s, i);
      TaxHead(s[i..], x);
      if x <= s[i].from { return; }
      t := t + At((if hi.Some? then Min(x, hi.value) else x) - s[i].from, s[i].rate);
    }
    assert s[|s|..] == [];
  }

  lemma NoSteps(x: real)
    ensures Tax([], x) == 0.0
  {
  }

  lemma NextIs(s: seq<Step>, i: nat)
    requires i < |s|
    ensures Next(s[i..]) == if i + 1 < |s| then Some(s[i + 1].from) else None
  {
  }

  /** The same schedule by lower ends. */
  function Steps(lo: real, b: seq<Bracket>): seq<Step>
    decreases |b|
  {
    if b == [] then []
    else if b[0].to.None? then [Step(lo, b[0].rate)]
    else [Step(lo, b[0].rate)] + Steps(b[0].to.value, b[1..])
  }

  /** Upper ends ascend from zero; the last bracket, and no other, has none. */
  ghost predicate WellFormed(lo: real, b: seq<Bracket>)
    decreases |b|
  {
    b != [] && if b[0].to.None? then |b| == 1 else lo <= b[0].to.value && WellFormed(b[0].to.value, b[1..])
  }

  lemma {:induction false} StepsOrdered(lo: real, b: seq<Bracket>)
    requires WellFormed(lo, b)
    ensures |Steps(lo, b)| == |b| && Ordered(Steps(lo, b)) && Steps(lo, b)[0].from == lo
    decreases |b|
  {
    if b[0].to.Some? {
      StepsOrdered(b[0].to.value, b[1..]);
      var rest := Steps(b[0].to.value, b[1..]);
      forall j | 0 <= j < |rest| ensures lo <= rest[j].from {
        assert rest[0].from <= rest[j].from;
      }
    }
  }

  /** One bracket of the table is the head of the schedule; what follows starts at its end. */
  lemma BracketHead(lo: real, b: seq<Bracket>, x: real)
    requires WellFormed(lo, b)
    ensures var step :=
              if x > lo then At((if b[0].to.Some? then Min(x, b[0].to.value) else x) - lo, b[0].rate) else 0.0;
            Tax(Steps(lo, b), x) == step + if b[0].to.Some? then Tax(Steps(b[0].to.value, b[1..]), x) else 0.0
    ensures b[0].to.Some? ==> WellFormed(b[0].to.value, b[1..])
    ensures b[0].to.None? ==> |b| == 1
  {
    StepsOrdered(lo, b);
    var s := Steps(lo, b);
    if b[0].to.Some? {
      StepsOrdered(b[0].to.value, b[1..]);
      assert s[1..] == Steps(b[0].to.value, b[1..]);
    }
    TaxHead(s, x);
    NoSteps(x);
  }

  lemma HasBracket(b: seq<Bracket>)
    requires WellFormed(0.0, b)
    ensures b != []
  {
  }

  /** `bracket_tax` computes the tax of the same schedule given by lower ends. */
  method BracketTax(ti: real, b: seq<Bracket>) returns (t: real)
    requires WellFormed(0.0, b)
    ensures t == Tax(Steps(0.0, b), ti)
  {
    hide *;
    var lo := 0.0;
    t := 0.0;
    assert b[0..] == b;
    HasBracket(b);
    for i := 0 to |b|
      invariant i < |b| ==> WellFormed(lo, b[i..])
      invariant t + (if i < |b| then Tax(Steps(lo, b[i..]), ti) else 0.0) == Tax(Steps(0.0, b), ti)
    {
      BracketHead(lo, b[i..], ti);
      assert b[i..][1..] == b[i + 1..];
      if ti > lo {
        t := t + At((if b[i].to.Some? then Min(ti, b[i].to.value) else ti) - lo, b[i].rate);
      }
      if b[i].to.Some? { lo := b[i].to.value; }
    }
  }

  // ---------- The shape of a schedule ----------

  /** The layer-cake form: every step adds its rate increase on everything above it. */
  function Layers(s: seq<Step>, below: real, x: real): real {
    if s == [] then 0.0 else At(Max(0.0, x - s[0].from), s[0].rate - below) + Layers(s[1..], s[0].rate, x)
  }

  lemma SliceIsDifference(x: real, from: real, to: real)
    requires from <= to
    ensures Slice(x, from, Some(to)) == Max(0.0, x - from) - Max(0.0, x - to)
  {
  }

  lemma {:induction false} LayersAreTax(s: seq<Step>, below: real, x: real)
    requires Ordered(s)
    ensures Layers(s, below, x) == Tax(s, x) - if s == [] then 0.0 else At(Max(0.0, x - s[0].from), below)
  {
    if s != [] {
      LayersAreTax(s[1..], s[0].rate, x);
      hide At, Max;
      var a := Max(0.0, x - s[0].from);
      AtDifferences(a, 0.0, s[0].rate, below);
      if |s| > 1 {
        assert s[0].from <= s[1].from;
        SliceIsDifference(x, s[0].from, s[1].from);
        AtDifferences(a, Max(0.0, x - s[1].from), s[0].rate, below);
      } else {
        SliceIsRamp(x, s[0].from);
      }
    } else {
      NoSteps(x);
    }
  }

  lemma AtDifferences(u: real, v: real, rate: real, below: real)
    ensures At(u, rate - below) == At(u, rate) - At(u, below)
    ensures At(u - v, rate) == At(u, rate) - At(v, rate)
  {
  }

  lemma SliceIsRamp(x: real, from: real)
    ensures Slice(x, from, None) == Max(0.0, x - from)
  {
  }

  lemma RampIncrement(x: real, y: real, p: real, from: real)
    requires x <= y && 0.0 <= p
    ensures Max(0.0, x + p - from) - Max(0.0, x - from) <= Max(0.0, y + p - from) - Max(0.0, y - from)
    ensures 0.0 <= Max(0.0, x + p - from) - Max(0.0, x - from) <= p
  {
  }

  lemma AtMonotone(u: real, v: real, rate: real)
    requires u <= v && 0.0 <= rate
    ensures At(u, rate) <= At(v, rate)
    ensures 0.0 <= u ==> 0.0 <= At(u, rate)
  {
  }

  /** On a progressive schedule the same extra income costs no less on top of more income. */
  lemma {:induction false} LayersConvex(s: seq<Step>, below: real, x: real, y: real, p: real)
    requires Progressive(s) && (s != [] ==> below <= s[0].rate) && x <= y && 0.0 <= p
    ensures Layers(s, below, x + p) - Layers(s, below, x) <= Layers(s, below, y + p) - Layers(s, below, y)
  {
    if s != [] {
      LayersConvex(s[1..], s[0].rate, x, y, p);
      var c, f := s[0].rate - below, s[0].from;
      RampIncrement(x, y, p, f);
      hide Max, Progressive, At;
      var u1, u0, v1, v0 := Max(0.0, x + p - f), Max(0.0, x - f), Max(0.0, y + p - f), Max(0.0, y - f);
      AtMonotone(u1 - u0, v1 - v0, c);
      AtDifferences(u1, u0, c, 0.0);
      AtDifferences(v1, v0, c, 0.0);
    }
  }

  lemma TaxConvex(s: seq<Step>, x: real, y: real, p: real)
    requires Ordered(s) && Progressive(s) && x <= y && 0.0 <= p
    ensures Tax(s, x + p) - Tax(s, x) <= Tax(s, y + p) - Tax(s, y)
  {
    LayersAreTax(s, 0.0, x);
    LayersAreTax(s, 0.0, x + p);
    LayersAreTax(s, 0.0, y);
    LayersAreTax(s, 0.0, y + p);
    LayersConvex(s, 0.0, x, y, p);
  }

  lemma SliceMonotone(x: real, y: real, from: real, to: Option<real>)
    requires x <= y
    ensures 0.0 <= Slice(x, from, to) <= Slice(y, from, to)
  {
  }

  lemma {:induction false} TaxMonotone(s: seq<Step>, x: real, y: real)
    requires Ordered(s) && (forall i :: 0 <= i < |s| ==> 0.0 <= s[i].rate) && x <= y
    ensures 0.0 <= Tax(s, x) <= Tax(s, y)
  {
    if s != [] {
      TaxMonotone(s[1..], x, y);
      SliceMonotone(x, y, s[0].from, Next(s));
      hide Slice, At;
      AtMonotone(0.0, Slice(x, s[0].from, Next(s)), s[0].rate);
      AtMonotone(Slice(x, s[0].from, Next(s)), Slice(y, s[0].from, Next(s)), s[0].rate);
    }
  }
}
