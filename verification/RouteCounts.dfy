/** What the route expansion accounts for, and when the independent stack count agrees with it. */
module RouteCounts {
  import opened Wrappers
  import opened RouteExpansion

  // ---------- The two counts ----------

  function OperationSkips(skipped: seq<Skipped>): nat {
    if skipped == [] then 0 else OperationSkips(skipped[..|skipped| - 1]) + if skipped[|skipped| - 1].Operation? then 1
      else 0
  }

  /** Operations a collection accounts for: recorded, hidden by an earlier one, or skipped one by one. */
  function Accounted(c: Collection): nat {
    |c.routes| + |c.shadowed| + OperationSkips(c.skipped)
  }

  /** Express keeps one layer per function and route whatever the path, so each is counted once. */
  function StackCount(entries: seq<Entry>): nat
    decreases entries, 0
  {
    if entries == [] then 0 else StackEntry(entries[0]) + StackCount(entries[1..])
  }

  function StackEntry(e: Entry): nat
    decreases e, 0
  {
    match e
    case Use(_, fns) => StackCountFns(fns)
    case Route(_, registrations) => |VerbSet(registrations)|
  }

  function StackCountFns(fns: seq<Fn>): nat
    decreases fns, 0
  {
    if fns == [] then 0
    else (if fns[0].Router? then StackCount(fns[0].entries) else 0) + StackCountFns(fns[1..])
  }

  function VerbSet(registrations: seq<Registration>): set<Option<string>> {
    set r | r in registrations :: r.verb
  }

  /** What one route adds for each of its paths. */
  function PerPath(registrations: seq<Registration>): nat {
    if HasAll(registrations) && Verbs(registrations) == [] then 1 else |Verbs(registrations)|
  }

  function Times(n: nat, x: nat): nat {
    if n == 0 then 0 else x + Times(n - 1, x)
  }

  /** How many operations the expansion accounts for: every string path again, patterns not at all. */
  function Expanded(entries: seq<Entry>): nat
    decreases entries, 0
  {
    if entries == [] then 0 else ExpandedEntry(entries[0]) + Expanded(entries[1..])
  }

  function ExpandedEntry(e: Entry): nat
    decreases e, 1
  {
    var paths := StringPaths(e.path);
    if paths.None? then 0 else Times(|paths.value|, OnePath(e))
  }

  function OnePath(e: Entry): nat
    decreases e, 0
  {
    match e
    case Use(_, fns) => ExpandedFns(fns)
    case Route(_, registrations) => PerPath(registrations)
  }

  function ExpandedFns(fns: seq<Fn>): nat
    decreases fns, 0
  {
    if fns == [] then 0
    else (if fns[0].Router? then Expanded(fns[0].entries) else 0) + ExpandedFns(fns[1..])
  }

  // ---------- What the expansion accounts for ----------

  lemma {:induction false} PlaceAdds(verb: string, verbs: seq<string>)
    ensures |Place(verb, verbs)| == |verbs| + 1
    ensures forall v :: v in Place(verb, verbs) <==> v == verb || v in verbs
  {
    if verbs != [] && !Before(verb, verbs[0]) {
      PlaceAdds(verb, verbs[1..]);
      assert verbs == [verbs[0]] + verbs[1..];
    }
  }

  /** The stack's method set holds each method once, and one more member when some handlers answer every method. */
  lemma {:induction false} VerbsCounted(registrations: seq<Registration>)
    ensures |VerbSet(registrations)| == |Verbs(registrations)| + if HasAll(registrations) then 1 else 0
    ensures None in VerbSet(registrations) <==> HasAll(registrations)
    ensures forall v :: Some(v) in VerbSet(registrations) <==> v in Verbs(registrations)
  {
    if registrations != [] {
      var first, rest := registrations[0], registrations[1..];
      VerbsCounted(rest);
      FirstVerb(registrations);
      if first.verb.Some? {
        PlaceAdds(first.verb.value, Verbs(rest));
      }
      hide HasAll, VerbSet, Place;
      if first.verb in VerbSet(rest) {
        assert VerbSet(registrations) == VerbSet(rest);
      }
    }
  }

  lemma FirstVerb(registrations: seq<Registration>)
    requires registrations != []
    ensures VerbSet(registrations) == {registrations[0].verb} + VerbSet(registrations[1..])
    ensures HasAll(registrations) <==> registrations[0].verb.None? || HasAll(registrations[1..])
  {
    var rest := registrations[1..];
    assert registrations == [registrations[0]] + rest;
    if i :| 0 <= i < |rest| && rest[i].verb.None? {
      assert registrations[i + 1].verb.None?;
    }
    if i :| 0 <= i < |registrations| && registrations[i].verb.None? {
      assert i > 0 ==> rest[i - 1].verb.None?;
    }
  }

  predicate SameOperation(a: Recorded, b: Recorded) {
    a.verb == b.verb && a.path == b.path
  }

  /** No operation is recorded twice, and every shadowed one is recorded. */
  ghost predicate FirstWins(c: Collection) {
    && (forall i, j :: 0 <= i < j < |c.routes| ==> !SameOperation(c.routes[i], c.routes[j]))
    && (forall s :: s in c.shadowed ==> exists i :: 0 <= i < |c.routes| && SameOperation(s, c.routes[i]))
  }

  /** `next` accounts for `n` operations more, loses none, and keeps the first of every operation. */
  ghost predicate Accounts(c: Collection, next: Collection, n: nat) {
    && Accounted(next) == Accounted(c) + n
    && c.routes <= next.routes
    && (FirstWins(c) ==> FirstWins(next))
  }

  lemma AccountsAll(a: Collection, b: Collection, c: Collection, m: nat, n: nat)
    requires Accounts(a, b, m) && Accounts(b, c, n)
    ensures Accounts(a, c, m + n)
  {
    hide Accounted, FirstWins;
  }

  lemma OperationAccounts(c: Collection, verb: string, full: string, chain: seq<Handler>, rules: PathRules)
    ensures Accounts(c, AddOperation(c, verb, full, chain, rules), 1)
  {
    SkipAccounts(c, Operation(verb, full));
    var converted := rules.convert(full);
    if verb in HTTP_METHODS && converted.Some? {
      RecordAccounts(c, Recorded(verb, full, converted.value, chain));
    }
    hide Accounts;
  }

  lemma SkipAccounts(c: Collection, s: Skipped)
    ensures Accounts(c, c.(skipped := c.skipped + [s]), if s.Operation? then 1 else 0)
  {
    assert (c.skipped + [s])[..|c.skipped|] == c.skipped;
  }

  lemma RecordAccounts(c: Collection, r: Recorded)
    ensures Accounts(c,
              if Seen(c, r.verb, r.path) then c.(shadowed := c.shadowed + [r]) else c.(routes := c.routes + [r]), 1)
  {
    hide OperationSkips;
    if Seen(c, r.verb, r.path) {
      var next := c.(shadowed := c.shadowed + [r]);
      var k :| 0 <= k < |c.routes| && c.routes[k].verb == r.verb && c.routes[k].path == r.path;
      assert SameOperation(r, next.routes[k]);
    } else {
      var next := c.(routes := c.routes + [r]);
      assert forall i :: 0 <= i < |c.routes| ==> next.routes[i] == c.routes[i] && !SameOperation(c.routes[i], r);
      if FirstWins(c) {
        forall s | s in c.shadowed ensures exists i :: 0 <= i < |next.routes| && SameOperation(s, next.routes[i]) {
          var i :| 0 <= i < |c.routes| && SameOperation(s, c.routes[i]);
          assert SameOperation(s, next.routes[i]);
        }
      }
    }
  }

  lemma {:induction false} OperationsAccount(c: Collection, verbs: seq<string>, registrations: seq<Registration>,
          full: string, above: seq<Handler>, rules: PathRules)
    ensures Accounts(c, AddOperations(c, verbs, registrations, full, above, rules), |verbs|)
    decreases |verbs|
  {
    hide AddOperation, Accounts, HandlersFor;
    if verbs == [] {
      NothingAccounts(c);
    } else {
      var next := AddOperation(c, verbs[0], full, above + HandlersFor(registrations, verbs[0]), rules);
      OperationAccounts(c, verbs[0], full, above + HandlersFor(registrations, verbs[0]), rules);
      OperationsAccount(next, verbs[1..], registrations, full, above, rules);
      AccountsAll(c, next, AddOperations(c, verbs, registrations, full, above, rules), 1, |verbs| - 1);
    }
  }

  lemma NothingAccounts(c: Collection)
    ensures Accounts(c, c, 0)
  {
  }

  lemma RouteAccounts(c: Collection, registrations: seq<Registration>, full: string, above: seq<Handler>,
          rules: PathRules)
    ensures Accounts(c, AddRoute(c, registrations, full, above, rules), PerPath(registrations))
  {
    hide Accounts, AddOperations;
    SkipAccounts(c, Operation("all", full));
    OperationsAccount(c, Verbs(registrations), registrations, full, above, rules);
  }

  /** The whole walk accounts for exactly the operations the tree expands to. */
  lemma {:induction false} WalkAccounts(entries: seq<Entry>, prefix: string, inherited: seq<Handler>,
          local: seq<Mounted>, c: Collection, rules: PathRules)
    ensures Accounts(c, Walk(entries, prefix, inherited, local, c, rules), Expanded(entries))
    decreases entries, 0, 0
  {
    hide Accounts;
    if entries == [] {
      NothingAccounts(c);
    } else {
      var (nextLocal, next) := WalkEntry(entries[0], prefix, inherited, local, c, rules);
      EntryAccounts(entries[0], prefix, inherited, local, c, rules);
      WalkAccounts(entries[1..], prefix, inherited, nextLocal, next, rules);
      AccountsAll(c, next, Walk(entries, prefix, inherited, local, c, rules), ExpandedEntry(entries[0]),
        Expanded(entries[1..]));
    }
  }

  lemma {:induction false} EntryAccounts(e: Entry, prefix: string, inherited: seq<Handler>, local: seq<Mounted>,
          c: Collection, rules: PathRules)
    ensures Accounts(c, WalkEntry(e, prefix, inherited, local, c, rules).1, ExpandedEntry(e))
    decreases e, 1, 0
  {
    hide Accounts;
    var paths := StringPaths(e.path);
    if paths.None? {
      SkipAccounts(c, Unreadable(prefix));
    } else {
      PathsAccount(e, paths.value, prefix, inherited, local, c, rules);
    }
  }

  lemma {:induction false} PathsAccount(e: Entry, paths: seq<string>, prefix: string, inherited: seq<Handler>,
          local: seq<Mounted>, c: Collection, rules: PathRules)
    ensures Accounts(c, WalkPaths(e, paths, prefix, inherited, local, c, rules).1, Times(|paths|, OnePath(e)))
    decreases e, 0, |paths|
  {
    hide Accounts, AddRoute, PerPath;
    if paths == [] {
      NothingAccounts(c);
    } else {
      var full := rules.join(prefix, paths[0]);
      var (nextLocal, next) := match e
        case Use(_, fns) => WalkFns(fns, full, inherited, [], local, c, rules)
        case Route(_, registrations) => (local,
          AddRoute(c, registrations, full, inherited + Applicable(local, full, rules), rules));
      match e {
        case Use(_, fns) => FnsAccount(fns, full, inherited, [], local, c, rules);
        case Route(_, registrations) => RouteAccounts(c, registrations, full,
          inherited + Applicable(local, full, rules), rules);
      }
      PathsAccount(e, paths[1..], prefix, inherited, nextLocal, next, rules);
      AccountsAll(c, next, WalkPaths(e, paths, prefix, inherited, local, c, rules).1, OnePath(e),
        Times(|paths| - 1, OnePath(e)));
    }
  }

  lemma {:induction false} FnsAccount(fns: seq<Fn>, full: string, inherited: seq<Handler>, before: seq<Handler>,
          local: seq<Mounted>, c: Collection, rules: PathRules)
    ensures Accounts(c, WalkFns(fns, full, inherited, before, local, c, rules).1, ExpandedFns(fns))
    decreases fns, 0, 0
  {
    hide Accounts, Applicable;
    if fns == [] {
      NothingAccounts(c);
    } else {
      match fns[0]
      case Router(entries) =>
        var above := inherited + Applicable(local, full, rules) + before;
        var next := Walk(entries, full, above, [], c, rules);
        WalkAccounts(entries, full, above, [], c, rules);
        FnsAccount(fns[1..], full, inherited, before, local, next, rules);
        AccountsAll(c, next, WalkFns(fns, full, inherited, before, local, c, rules).1, Expanded(entries),
          ExpandedFns(fns[1..]));
      case Middleware(h) => FnsAccount(fns[1..], full, inherited, before + [h], local + [Mounted(full, h)], c, rules);
    }
  }

  // ---------- When the two counts agree ----------

  /** Nothing the stack counts is out of the expansion's sight: a pattern over routes, or `all` beside other methods. */
  predicate NothingHidden(entries: seq<Entry>)
    decreases entries, 0
  {
    entries == [] || (VisibleEntry(entries[0]) && NothingHidden(entries[1..]))
  }

  predicate VisibleEntry(e: Entry)
    decreases e, 0
  {
    if StringPaths(e.path).None? then StackEntry(e) == 0
    else
      match e
      case Use(_, fns) => VisibleFns(fns)
      case Route(_, registrations) => !HasAll(registrations) || Verbs(registrations) == []
  }

  predicate VisibleFns(fns: seq<Fn>)
    decreases fns, 0
  {
    fns == [] || ((fns[0].Router? ==> NothingHidden(fns[0].entries)) && VisibleFns(fns[1..]))
  }

  /** No list of two or more paths stands over anything the stack counts. */
  predicate NothingRepeated(entries: seq<Entry>)
    decreases entries, 0
  {
    entries == [] || (OnceEntry(entries[0]) && NothingRepeated(entries[1..]))
  }

  predicate OnceEntry(e: Entry)
    decreases e, 0
  {
    var paths := StringPaths(e.path);
    if paths.Some? && |paths.value| > 1 then StackEntry(e) == 0
    else e.Use? && paths.Some? ==> OnceFns(e.fns)
  }

  predicate OnceFns(fns: seq<Fn>)
    decreases fns, 0
  {
    fns == [] || ((fns[0].Router? ==> NothingRepeated(fns[0].entries)) && OnceFns(fns[1..]))
  }

  lemma TimesGrows(n: nat, x: nat)
    ensures n == 1 ==> Times(n, x) == x
    ensures n >= 1 ==> x <= Times(n, x)
    ensures n >= 2 ==> (Times(n, x) == 0 <==> x == 0) && (x > 0 ==> x < Times(n, x))
  {
    if n > 1 {
      TimesGrows(n - 1, x);
    }
  }

  /**
   * Where nothing is hidden, the expansion never accounts for fewer operations than the stack counts, and for exactly
   * as many if and only if no list of paths repeats one.
   */
  lemma {:induction false} NeverFewer(entries: seq<Entry>)
    requires NothingHidden(entries)
    ensures StackCount(entries) <= Expanded(entries)
    ensures StackCount(entries) == 0 ==> Expanded(entries) == 0
    ensures Expanded(entries) == StackCount(entries) <==> NothingRepeated(entries)
    decreases entries, 0
  {
    if entries != [] {
      EntryNeverFewer(entries[0]);
      NeverFewer(entries[1..]);
    }
  }

  lemma {:induction false} EntryNeverFewer(e: Entry)
    requires VisibleEntry(e)
    ensures StackEntry(e) <= ExpandedEntry(e)
    ensures StackEntry(e) == 0 ==> ExpandedEntry(e) == 0
    ensures ExpandedEntry(e) == StackEntry(e) <==> OnceEntry(e)
    decreases e, 1
  {
    var paths := StringPaths(e.path);
    if paths.Some? {
      TimesGrows(|paths.value|, OnePath(e));
      match e {
        case Use(_, fns) => FnsNeverFewer(fns);
        case Route(_, registrations) => VerbsCounted(registrations);
      }
    }
  }

  lemma {:induction false} FnsNeverFewer(fns: seq<Fn>)
    requires VisibleFns(fns)
    ensures StackCountFns(fns) <= ExpandedFns(fns)
    ensures StackCountFns(fns) == 0 ==> ExpandedFns(fns) == 0
    ensures ExpandedFns(fns) == StackCountFns(fns) <==> OnceFns(fns)
    decreases fns, 0
  {
    if fns != [] {
      if fns[0].Router? {
        NeverFewer(fns[0].entries);
      }
      FnsNeverFewer(fns[1..]);
    }
  }

  /** Every readable path is a single one. */
  predicate SinglePaths(entries: seq<Entry>)
    decreases entries, 0
  {
    entries == [] || (SingleEntry(entries[0]) && SinglePaths(entries[1..]))
  }

  predicate SingleEntry(e: Entry)
    decreases e, 0
  {
    var paths := StringPaths(e.path);
    paths.Some? ==> |paths.value| == 1 && (e.Use? ==> SingleFns(e.fns))
  }

  predicate SingleFns(fns: seq<Fn>)
    decreases fns, 0
  {
    fns == [] || ((fns[0].Router? ==> SinglePaths(fns[0].entries)) && SingleFns(fns[1..]))
  }

  /** Where paths are single, the expansion never accounts for more, and for exactly as many iff nothing is hidden. */
  lemma {:induction false} NeverMore(entries: seq<Entry>)
    requires SinglePaths(entries)
    ensures Expanded(entries) <= StackCount(entries)
    ensures Expanded(entries) == StackCount(entries) <==> NothingHidden(entries)
    decreases entries, 0
  {
    if entries != [] {
      EntryNeverMore(entries[0]);
      NeverMore(entries[1..]);
    }
  }

  lemma {:induction false} EntryNeverMore(e: Entry)
    requires SingleEntry(e)
    ensures ExpandedEntry(e) <= StackEntry(e)
    ensures ExpandedEntry(e) == StackEntry(e) <==> VisibleEntry(e)
    decreases e, 1
  {
    var paths := StringPaths(e.path);
    if paths.Some? {
      TimesGrows(|paths.value|, OnePath(e));
      match e {
        case Use(_, fns) => FnsNeverMore(fns);
        case Route(_, registrations) => VerbsCounted(registrations);
      }
    }
  }

  lemma {:induction false} FnsNeverMore(fns: seq<Fn>)
    requires SingleFns(fns)
    ensures ExpandedFns(fns) <= StackCountFns(fns)
    ensures ExpandedFns(fns) == StackCountFns(fns) <==> VisibleFns(fns)
    decreases fns, 0
  {
    if fns != [] {
      if fns[0].Router? {
        NeverMore(fns[0].entries);
      }
      FnsNeverMore(fns[1..]);
    }
  }

  // ---------- By how much the two counts differ ----------

  /** What the stack counts out of the expansion's sight. */
  function Hidden(entries: seq<Entry>): nat
    decreases entries, 0
  {
    if entries == [] then 0 else HiddenEntry(entries[0]) + Hidden(entries[1..])
  }

  function HiddenEntry(e: Entry): nat
    decreases e, 0
  {
    if StringPaths(e.path).None? then StackEntry(e)
    else
      match e
      case Use(_, fns) => HiddenFns(fns)
      case Route(_, registrations) => if HasAll(registrations) && Verbs(registrations) != [] then 1 else 0
  }

  function HiddenFns(fns: seq<Fn>): nat
    decreases fns, 0
  {
    if fns == [] then 0
    else (if fns[0].Router? then Hidden(fns[0].entries) else 0) + HiddenFns(fns[1..])
  }

  /** What the expansion accounts for again: everything under a list of paths, once for each path after the first. */
  function Repeated(entries: seq<Entry>): nat
    decreases entries, 0
  {
    if entries == [] then 0 else RepeatedEntry(entries[0]) + Repeated(entries[1..])
  }

  function RepeatedEntry(e: Entry): nat
    decreases e, 0
  {
    match StringPaths(e.path)
    case None => 0
    case Some(paths) => Times(|paths| - 1, OnePath(e)) + if e.Use? then RepeatedFns(e.fns) else 0
  }

  function RepeatedFns(fns: seq<Fn>): nat
    decreases fns, 0
  {
    if fns == [] then 0
    else (if fns[0].Router? then Repeated(fns[0].entries) else 0) + RepeatedFns(fns[1..])
  }

  /**
   * On every tree the expansion accounts for what the stack counts, less what is hidden from it, and what it repeats.
   * So the two counts agree if and only if as much is hidden as is repeated.
   */
  lemma {:induction false} CountsDiffer(entries: seq<Entry>)
    ensures Expanded(entries) + Hidden(entries) == StackCount(entries) + Repeated(entries)
    ensures Hidden(entries) == 0 <==> NothingHidden(entries)
    ensures SinglePaths(entries) ==> Repeated(entries) == 0
    decreases entries, 0
  {
    if entries != [] {
      EntryDiffers(entries[0]);
      CountsDiffer(entries[1..]);
    }
  }

  lemma {:induction false} EntryDiffers(e: Entry)
    ensures ExpandedEntry(e) + HiddenEntry(e) == StackEntry(e) + RepeatedEntry(e)
    ensures HiddenEntry(e) == 0 <==> VisibleEntry(e)
    ensures SingleEntry(e) ==> RepeatedEntry(e) == 0
    decreases e, 1
  {
    match e {
      case Use(_, fns) => FnsDiffer(fns);
      case Route(_, registrations) => VerbsCounted(registrations);
    }
  }

  lemma {:induction false} FnsDiffer(fns: seq<Fn>)
    ensures ExpandedFns(fns) + HiddenFns(fns) == StackCountFns(fns) + RepeatedFns(fns)
    ensures HiddenFns(fns) == 0 <==> VisibleFns(fns)
    ensures SingleFns(fns) ==> RepeatedFns(fns) == 0
    decreases fns, 0
  {
    if fns != [] {
      if fns[0].Router? {
        CountsDiffer(fns[0].entries);
      }
      FnsDiffer(fns[1..]);
    }
  }

  /** A whole collection: it keeps the first of every operation and accounts for what the tree expands to. */
  method Collect(entries: seq<Entry>, rules: PathRules) returns (c: Collection)
    ensures c == Walk(entries, "/", [], [], Collection([], [], []), rules)
    ensures FirstWins(c) && Accounted(c) == Expanded(entries)
  {
    var expansion := new Expansion(rules);
    expansion.WalkRouter(entries, "/", []);
    c := expansion.State();
    WalkAccounts(entries, "/", [], [], Collection([], [], []), rules);
  }
}
