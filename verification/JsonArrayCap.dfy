/** The cap on the array elements a JSON body may carry: a walk with its own stack that stops early. */
module JsonArrayCap {
  import opened Wrappers

  /** A parsed body; an object's keys and a scalar's value play no part. */
  datatype Json = Null | Scalar | Array(items: seq<Json>) | Object(values: seq<Json>) {
    predicate Container() {
      Array? || Object?
    }

    function Children(): seq<Json>
      requires Container()
    {
      if Array? then items else values
    }
  }

  /** The elements of every array at every depth. */
  function Elements(v: Json): nat
    decreases v
  {
    match v
    case Array(items) => |items| + ElementsOf(items)
    case Object(values) => ElementsOf(values)
    case _ => 0
  }

  function ElementsOf(vs: seq<Json>): nat
    decreases vs
  {
    if vs == [] then 0 else Elements(vs[0]) + ElementsOf(vs[1..])
  }

  function Nodes(v: Json): nat
    decreases v
  {
    match v
    case Array(items) => 1 + NodesOf(items)
    case Object(values) => 1 + NodesOf(values)
    case _ => 1
  }

  function NodesOf(vs: seq<Json>): nat
    decreases vs
  {
    if vs == [] then 0 else Nodes(vs[0]) + NodesOf(vs[1..])
  }

  // ---------- What is counted ----------

  /** The values of every object at every depth. */
  function Members(v: Json): nat
    decreases v
  {
    match v
    case Array(items) => MembersOf(items)
    case Object(values) => |values| + MembersOf(values)
    case _ => 0
  }

  function MembersOf(vs: seq<Json>): nat
    decreases vs
  {
    if vs == [] then 0 else Members(vs[0]) + MembersOf(vs[1..])
  }

  /** Everything in a body but the body itself is an element of some array or a value of some object, and not both. */
  lemma {:induction false} ElementOrMember(v: Json)
    ensures Nodes(v) == 1 + Elements(v) + Members(v)
    decreases v, 1
  {
    if v.Container() { AllElementsOrMembers(v.Children()); }
  }

  lemma {:induction false} AllElementsOrMembers(vs: seq<Json>)
    ensures NodesOf(vs) == |vs| + ElementsOf(vs) + MembersOf(vs)
    decreases vs, 0
  {
    if vs != [] {
      ElementOrMember(vs[0]);
      AllElementsOrMembers(vs[1..]);
    }
  }

  /** `part` is the body, or part of one of its elements or values, at any depth. */
  ghost predicate PartOf(part: Json, v: Json)
    decreases v
  {
    part == v || (v.Container() && exists i :: 0 <= i < |v.Children()| && PartOf(part, v.Children()[i]))
  }

  /** An array counts wherever it stands: in an array, under a key, at any depth. */
  lemma {:induction false} EveryArrayCounts(part: Json, v: Json)
    requires PartOf(part, v)
    ensures Elements(part) <= Elements(v) && (part.Array? ==> |part.items| <= Elements(v))
    decreases v
  {
    if part != v {
      var i :| 0 <= i < |v.Children()| && PartOf(part, v.Children()[i]);
      EveryArrayCounts(part, v.Children()[i]);
      ChildCounts(v.Children(), i);
    }
  }

  lemma {:induction false} ChildCounts(vs: seq<Json>, i: nat)
    requires i < |vs|
    ensures Elements(vs[i]) <= ElementsOf(vs)
  {
    if i > 0 { ChildCounts(vs[1..], i - 1); }
  }

  // ---------- The walk ----------

  lemma {:induction false} Snoc(vs: seq<Json>, v: Json)
    ensures ElementsOf(vs + [v]) == ElementsOf(vs) + Elements(v) && NodesOf(vs + [v]) == NodesOf(vs) + Nodes(v)
  {
    if vs == [] {
      assert [v][1..] == [];
      assert [] + [v] == [v];
    } else {
      Snoc(vs[1..], v);
      assert (vs + [v])[1..] == vs[1..] + [v];
    }
  }

  lemma Last(vs: seq<Json>)
    requires vs != []
    ensures var n := |vs| - 1;
            ElementsOf(vs) == ElementsOf(vs[..n]) + Elements(vs[n]) && NodesOf(vs) == NodesOf(vs[..n]) + Nodes(vs[n])
  {
    Snoc(vs[..|vs| - 1], vs[|vs| - 1]);
    assert vs == vs[..|vs| - 1] + [vs[|vs| - 1]];
  }

  /** Pushes the arrays and objects among the children; nothing else can add to the count. */
  method PushContainers(stack: seq<Json>, children: seq<Json>) returns (next: seq<Json>)
    ensures ElementsOf(next) == ElementsOf(stack) + ElementsOf(children)
    ensures NodesOf(next) <= NodesOf(stack) + NodesOf(children)
  {
    next := stack;
    for i := 0 to |children|
      invariant ElementsOf(next) == ElementsOf(stack) + ElementsOf(children[..i])
      invariant NodesOf(next) <= NodesOf(stack) + NodesOf(children[..i])
    {
      var item := children[i];
      Snoc(next, item);
      Snoc(children[..i], item);
      assert children[..i + 1] == children[..i] + [item];
      if item.Container() {
        next := next + [item];
      }
    }
    assert children[..|children|] == children;
  }

  /** The exact number when it is within the cap; otherwise some number above the cap, and no more than there are. */
  method CountArrayElements(value: Json, cap: int) returns (total: nat)
    ensures total == Elements(value) || cap < total <= Elements(value)
  {
    total := 0;
    var stack := [value];
    assert [value][1..] == [];
    while |stack| > 0
      invariant total + ElementsOf(stack) == Elements(value)
      decreases NodesOf(stack)
    {
      Last(stack);
      var v := stack[|stack| - 1];
      stack := stack[..|stack| - 1];
      if !v.Container() {
        continue;
      }
      if v.Array? {
        total := total + |v.items|;
        if total > cap {
          return;
        }
      }
      stack := PushContainers(stack, v.Children());
    }
  }

  /** The middleware refuses a body exactly when it carries more elements than the cap. */
  method Refuses(body: Json, cap: int) returns (refused: bool)
    requires 0 <= cap
    ensures refused <==> Elements(body) > cap
  {
    if !body.Container() {
      return false;
    }
    var total := CountArrayElements(body, cap);
    refused := total > cap;
  }
}
