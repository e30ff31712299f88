/** The route recorder's expansion of a registration tree, and the independent count it is checked against. */
module RouteExpansion {
  import opened Wrappers

  type Handler = nat

  /** One string, several paths, or a pattern. */
  datatype RawPath = One(path: string) | Many(paths: seq<string>) | Pattern

  /** Handlers of a route; without a method they answer every method. */
  datatype Registration = Registration(verb: Option<string>, fns: seq<Handler>)

  datatype Fn = Middleware(handler: Handler) | Router(entries: seq<Entry>)

  datatype Entry = Use(path: RawPath, fns: seq<Fn>) | Route(path: RawPath, registrations: seq<Registration>)

  datatype Recorded = Recorded(verb: string, expressPath: string, path: string, chain: seq<Handler>)

  datatype Skipped = Unreadable(prefix: string) | Operation(verb: string, expressPath: string)

  datatype Mounted = Mounted(path: string, handler: Handler)

  /** How paths are joined, written for the document when they can be, and matched by mounted middleware. */
  datatype PathRules = PathRules(join: (string, string) -> string, convert: string -> Option<string>, applies: (string,
        string) -> bool)

  datatype Collection = Collection(routes: seq<Recorded>, skipped: seq<Skipped>, shadowed: seq<Recorded>)

  const HTTP_METHODS := {"get", "post", "put", "patch", "delete", "head", "options"}

  function StringPaths(p: RawPath): (r: Option<seq<string>>)
    ensures r.Some? ==> r.value != []
  {
    match p
    case One(path) => Some([path])
    case Many(paths) => if paths == [] then None else Some(paths)
    case Pattern => None
  }

  // ---------- A route's methods ----------

  predicate Before(a: string, b: string) {
    if b == "" then false
    else if a == "" then true
    else a[0] < b[0] || (a[0] == b[0] && Before(a[1..], b[1..]))
  }

  function Place(verb: string, verbs: seq<string>): seq<string> {
    if verbs == [] || Before(verb, verbs[0]) then [verb] + verbs else [verbs[0]] + Place(verb, verbs[1..])
  }

  /** The different methods in alphabetical order. */
  function Verbs(registrations: seq<Registration>): seq<string> {
    if registrations == [] then []
    else
      var verbs, verb := Verbs(registrations[1..]), registrations[0].verb;
      if verb.None? || verb.value in verbs then verbs else Place(verb.value, verbs)
  }

  /** The first character in which `a` and `b` differ is smaller in `a`, or `a` ends before it. */
  ghost predicate Alphabetical(a: string, b: string) {
    exists k: nat :: k < |b| && k <= |a| && a[..k] == b[..k] && (k < |a| ==> a[k] < b[k])
  }

  lemma OneMoreCharacter(a: string, b: string, k: nat)
    requires k < |a| && k < |b|
    ensures a[..k + 1] == b[..k + 1] <==> a[0] == b[0] && a[1..][..k] == b[1..][..k]
  {
    assert a[..k + 1] == [a[0]] + a[1..][..k] && b[..k + 1] == [b[0]] + b[1..][..k];
    assert a[..k + 1] == b[..k + 1] ==> a[..k + 1][1..] == b[..k + 1][1..];
    assert a[..k + 1][1..] == a[1..][..k] && b[..k + 1][1..] == b[1..][..k];
    assert a[..k + 1] == b[..k + 1] ==> a[..k + 1][0] == b[..k + 1][0];
  }

  lemma SameFirstCharacter(a: string, b: string)
    requires a != "" && b != "" && a[0] == b[0]
    ensures Alphabetical(a, b) <==> Alphabetical(a[1..], b[1..])
  {
    if Alphabetical(a[1..], b[1..]) {
      var k: nat :| k < |b[1..]| && k <= |a[1..]| && a[1..][..k] == b[1..][..k]
        && (k < |a[1..]| ==> a[1..][k] < b[1..][k]);
      OneMoreCharacter(a, b, k);
      assert k + 1 < |b| && k + 1 <= |a| && a[..k + 1] == b[..k + 1];
    }
    if Alphabetical(a, b) {
      var k: nat :| k < |b| && k <= |a| && a[..k] == b[..k] && (k < |a| ==> a[k] < b[k]);
      assert k > 0;
      OneMoreCharacter(a, b, k - 1);
      assert k - 1 < |b[1..]| && a[1..][..k - 1] == b[1..][..k - 1];
    }
  }

  lemma OtherFirstCharacter(a: string, b: string)
    requires a == "" || b == "" || a[0] != b[0]
    ensures Alphabetical(a, b) <==> b != "" && (a == "" || a[0] < b[0])
  {
    assert a[..0] == b[..0];
    if Alphabetical(a, b) {
      var k: nat :| k < |b| && k <= |a| && a[..k] == b[..k] && (k < |a| ==> a[k] < b[k]);
      assert k == 0;
    }
  }

  lemma {:induction false} BeforeIsAlphabetical(a: string, b: string)
    ensures Before(a, b) <==> Alphabetical(a, b)
    ensures a == b || Before(a, b) || Before(b, a)
  {
    hide Alphabetical;
    if a != "" && b != "" && a[0] == b[0] {
      BeforeIsAlphabetical(a[1..], b[1..]);
      SameFirstCharacter(a, b);
      assert a == [a[0]] + a[1..] && b == [b[0]] + b[1..];
    } else {
      OtherFirstCharacter(a, b);
    }
  }

  lemma {:induction false} BeforeIsTransitive(a: string, b: string, c: string)
    requires Before(a, b) && Before(b, c)
    ensures Before(a, c)
  {
    if a != "" && a[0] == b[0] == c[0] { BeforeIsTransitive(a[1..], b[1..], c[1..]); }
  }

  ghost predicate Ascending(verbs: seq<string>) {
    forall i, j :: 0 <= i < j < |verbs| ==> Before(verbs[i], verbs[j])
  }

  lemma AscendingFrom(first: string, rest: seq<string>)
    requires Ascending(rest) && forall v :: v in rest ==> Before(first, v)
    ensures Ascending([first] + rest)
  {
    hide Before;
  }

  lemma {:induction false} PlaceKeepsOrder(verb: string, verbs: seq<string>)
    requires Ascending(verbs) && verb !in verbs
    ensures Ascending(Place(verb, verbs))
    ensures forall v :: v in Place(verb, verbs) <==> v == verb || v in verbs
  {
    hide Before;
    if verbs == [] {
      assert Place(verb, verbs) == [verb];
    } else {
      var first, rest := verbs[0], verbs[1..];
      assert verbs == [first] + rest;
      assert forall v :: v in rest ==> Before(first, v);
      BeforeIsAlphabetical(verb, first);
      if Before(verb, first) {
        forall v | v in verbs ensures Before(verb, v) {
          if v != first { BeforeIsTransitive(verb, first, v); }
        }
        AscendingFrom(verb, verbs);
      } else {
        PlaceKeepsOrder(verb, rest);
        AscendingFrom(first, Place(verb, rest));
      }
    }
  }

  /** The methods of a route: each one that some registration is for, once, in alphabetical order. */
  lemma {:induction false} VerbsInOrder(registrations: seq<Registration>)
    ensures Ascending(Verbs(registrations))
    ensures forall v :: v in Verbs(registrations) <==> exists r :: r in registrations && r.verb == Some(v)
  {
    if registrations != [] {
      var first, rest := registrations[0], registrations[1..];
      assert registrations == [first] + rest;
      VerbsInOrder(rest);
      if first.verb.Some? && first.verb.value !in Verbs(rest) {
        PlaceKeepsOrder(first.verb.value, Verbs(rest));
      }
    }
  }

  predicate HasAll(registrations: seq<Registration>) {
    exists i :: 0 <= i < |registrations| && registrations[i].verb.None?
  }

  function FnsFor(r: Registration, verb: string): seq<Handler> {
    if r.verb.None? || r.verb.value == verb then r.fns else []
  }

  function HandlersFor(registrations: seq<Registration>, verb: string): seq<Handler> {
    if registrations == [] then []
    else
      FnsFor(registrations[0], verb) + HandlersFor(registrations[1..], verb)
  }

  // ---------- Expansion ----------

  function HandlerOf(m: Mounted, full: string, rules: PathRules): seq<Handler> {
    if rules.applies(m.path, full) then [m.handler] else []
  }

  /** The handlers of the middleware mounted so far that applies to a path. */
  function Applicable(local: seq<Mounted>, full: string, rules: PathRules): seq<Handler> {
    if local == [] then [] else HandlerOf(local[0], full, rules) + Applicable(local[1..], full, rules)
  }

  predicate Seen(c: Collection, verb: string, path: string) {
    exists i :: 0 <= i < |c.routes| && c.routes[i].verb == verb && c.routes[i].path == path
  }

  function AddOperation(c: Collection, verb: string, full: string, chain: seq<Handler>, rules: PathRules): Collection {
    var converted := rules.convert(full);
    if verb !in HTTP_METHODS || converted.None? then c.(skipped := c.skipped + [Operation(verb, full)])
    else
      var recorded := Recorded(verb, full, converted.value, chain);
      if Seen(c, verb, converted.value) then c.(shadowed := c.shadowed + [recorded])
        else c.(routes := c.routes + [recorded])
  }

  function AddOperations(c: Collection, verbs: seq<string>, registrations: seq<Registration>, full: string,
          above: seq<Handler>, rules: PathRules): Collection
    decreases |verbs|
  {
    if verbs == [] then c
    else
      AddOperations(AddOperation(c, verbs[0], full, above + HandlersFor(registrations, verbs[0]), rules),
        verbs[1..], registrations, full, above, rules)
  }

  function AddRoute(c: Collection, registrations: seq<Registration>, full: string, above: seq<Handler>,
          rules: PathRules): Collection {
    if HasAll(registrations) && Verbs(registrations) == [] then c.(skipped := c.skipped + [Operation("all", full)])
    else AddOperations(c, Verbs(registrations), registrations, full, above, rules)
  }

  /** The entries of one router, with the middleware mounted on it so far. */
  function Walk(entries: seq<Entry>, prefix: string, inherited: seq<Handler>, local: seq<Mounted>, c: Collection,
          rules: PathRules): Collection
    decreases entries, 0, 0
  {
    if entries == [] then c
    else
      var (nextLocal, next) := WalkEntry(entries[0], prefix, inherited, local, c, rules);
      Walk(entries[1..], prefix, inherited, nextLocal, next, rules)
  }

  function WalkEntry(e: Entry, prefix: string, inherited: seq<Handler>, local: seq<Mounted>, c: Collection,
          rules: PathRules): (seq<Mounted>, Collection)
    decreases e, 1, 0
  {
    var paths := StringPaths(e.path);
    if paths.None? then (local, c.(skipped := c.skipped + [Unreadable(prefix)]))
    else WalkPaths(e, paths.value, prefix, inherited, local, c, rules)
  }

  function WalkPaths(e: Entry, paths: seq<string>, prefix: string, inherited: seq<Handler>, local: seq<Mounted>,
          c: Collection, rules: PathRules): (seq<Mounted>, Collection)
    decreases e, 0, |paths|
  {
    if paths == [] then (local, c)
    else
      var full := rules.join(prefix, paths[0]);
      var (nextLocal, next) := match e
        case Use(_, fns) => WalkFns(fns, full, inherited, [], local, c, rules)
        case Route(_, registrations) => (local,
          AddRoute(c, registrations, full, inherited + Applicable(local, full, rules), rules));
      WalkPaths(e, paths[1..], prefix, inherited, nextLocal, next, rules)
  }

  /** The functions of one `use` call on one path: `before` are the middleware of this call already passed. */
  function WalkFns(fns: seq<Fn>, full: string, inherited: seq<Handler>, before: seq<Handler>, local: seq<Mounted>,
          c: Collection, rules: PathRules): (seq<Mounted>, Collection)
    decreases fns, 0, 0
  {
    if fns == [] then (local, c)
    else
      match fns[0]
      case Router(entries) =>
        var next := Walk(entries, full, inherited + Applicable(local, full, rules) + before, [], c, rules);
        WalkFns(fns[1..], full, inherited, before, local, next, rules)
      case Middleware(h) => WalkFns(fns[1..], full, inherited, before + [h], local + [Mounted(full, h)], c, rules)
  }

  // ---------- What a chain holds ----------

  /** The registration answers the method: it is for it, or for every method. */
  predicate Answers(r: Registration, verb: string) {
    r.verb.None? || r.verb == Some(verb)
  }

  /** The handlers are the registrations' own that answer the method, each registration's in its place. */
  lemma {:induction false} HandlersHold(registrations: seq<Registration>, verb: string, h: Handler)
    ensures h in HandlersFor(registrations, verb)
       <==> exists r :: r in registrations && Answers(r, verb) && h in r.fns
  {
    if registrations != [] {
      HandlersHold(registrations[1..], verb, h);
      assert registrations == [registrations[0]] + registrations[1..];
    }
  }

  lemma HandlersAt(registrations: seq<Registration>, verb: string, i: nat)
    requires i < |registrations|
    ensures HandlersFor(registrations, verb)
         == HandlersFor(registrations[..i], verb)
            + (if Answers(registrations[i], verb) then registrations[i].fns else [])
            + HandlersFor(registrations[i + 1..], verb)
  {
    var a, b := registrations[..i], registrations[i + 1..];
    assert registrations == a + ([registrations[i]] + b) && ([registrations[i]] + b)[1..] == b;
    HandlersInOrder(a, [registrations[i]] + b, verb);
  }

  lemma {:induction false} HandlersInOrder(a: seq<Registration>, b: seq<Registration>, verb: string)
    ensures HandlersFor(a + b, verb) == HandlersFor(a, verb) + HandlersFor(b, verb)
  {
    if a == [] {
      assert a + b == b;
    } else {
      assert (a + b)[1..] == a[1..] + b;
      HandlersInOrder(a[1..], b, verb);
    }
  }

  /**
   * A route's own part of a chain: exactly the handlers given for the method or for every method, each registration's
   * once, between those registered before and after it.
   */
  lemma HandlersAnswer(registrations: seq<Registration>, verb: string)
    ensures forall h :: h in HandlersFor(registrations, verb)
                   <==> exists r :: r in registrations && Answers(r, verb) && h in r.fns
    ensures forall i {:trigger registrations[i]} :: 0 <= i < |registrations| ==>
              HandlersFor(registrations, verb)
                == HandlersFor(registrations[..i], verb)
                   + (if Answers(registrations[i], verb) then registrations[i].fns else [])
                   + HandlersFor(registrations[i + 1..], verb)
  {
    hide HandlersFor, FnsFor, Answers;
    forall h ensures h in HandlersFor(registrations, verb)
      <==> exists r :: r in registrations && Answers(r, verb) && h in r.fns {
      HandlersHold(registrations, verb, h);
    }
    forall i {:trigger registrations[i]} | 0 <= i < |registrations|
      ensures HandlersFor(registrations, verb)
           == HandlersFor(registrations[..i], verb)
              + (if Answers(registrations[i], verb) then registrations[i].fns else [])
              + HandlersFor(registrations[i + 1..], verb)
    {
      HandlersAt(registrations, verb, i);
    }
  }

  lemma {:induction false} ApplicableHolds(local: seq<Mounted>, full: string, h: Handler, rules: PathRules)
    ensures h in Applicable(local, full, rules)
       <==> exists m :: m in local && m.handler == h && rules.applies(m.path, full)
  {
    if local != [] {
      ApplicableHolds(local[1..], full, h, rules);
      assert local == [local[0]] + local[1..];
    }
  }

  lemma {:induction false} ApplicableInOrder(a: seq<Mounted>, b: seq<Mounted>, full: string, rules: PathRules)
    ensures Applicable(a + b, full, rules) == Applicable(a, full, rules) + Applicable(b, full, rules)
  {
    if a == [] {
      assert a + b == b;
    } else {
      assert (a + b)[1..] == a[1..] + b;
      ApplicableInOrder(a[1..], b, full, rules);
    }
  }

  lemma ApplicableAt(local: seq<Mounted>, full: string, i: nat, rules: PathRules)
    requires i < |local|
    ensures Applicable(local, full, rules)
         == Applicable(local[..i], full, rules)
            + (if rules.applies(local[i].path, full) then [local[i].handler] else [])
            + Applicable(local[i + 1..], full, rules)
  {
    var a, b := local[..i], local[i + 1..];
    assert local == a + ([local[i]] + b) && ([local[i]] + b)[1..] == b;
    ApplicableInOrder(a, [local[i]] + b, full, rules);
  }

  /**
   * The part above it: exactly the middleware mounted so far whose path applies, each once, in the order it was
   * mounted.
   */
  lemma ApplicableApplies(local: seq<Mounted>, full: string, rules: PathRules)
    ensures forall h :: h in Applicable(local, full, rules)
                   <==> exists m :: m in local && m.handler == h && rules.applies(m.path, full)
    ensures forall i {:trigger local[i]} :: 0 <= i < |local| ==>
              Applicable(local, full, rules)
                == Applicable(local[..i], full, rules)
                   + (if rules.applies(local[i].path, full) then [local[i].handler] else [])
                   + Applicable(local[i + 1..], full, rules)
  {
    hide Applicable, HandlerOf;
    forall h ensures h in Applicable(local, full, rules)
      <==> exists m :: m in local && m.handler == h && rules.applies(m.path, full) {
      ApplicableHolds(local, full, h, rules);
    }
    forall i {:trigger local[i]} | 0 <= i < |local|
      ensures Applicable(local, full, rules)
           == Applicable(local[..i], full, rules)
              + (if rules.applies(local[i].path, full) then [local[i].handler] else [])
              + Applicable(local[i + 1..], full, rules)
    {
      ApplicableAt(local, full, i, rules);
    }
  }

  // ---------- Middleware mounted in front of a router ----------

  function Middlewares(handlers: seq<Handler>): seq<Fn> {
    if handlers == [] then [] else [Middleware(handlers[0])] + Middlewares(handlers[1..])
  }

  function MountedAt(full: string, handlers: seq<Handler>): seq<Mounted> {
    if handlers == [] then [] else [Mounted(full, handlers[0])] + MountedAt(full, handlers[1..])
  }

  lemma ApplicableMore(local: seq<Mounted>, full: string, handlers: seq<Handler>, rules: PathRules)
    requires rules.applies(full, full)
    ensures Applicable(local + MountedAt(full, handlers), full, rules) == Applicable(local, full, rules) + handlers
  {
    ApplicableInOrder(local, MountedAt(full, handlers), full, rules);
    ApplicableAll(full, handlers, rules);
  }

  lemma {:induction false} ApplicableAll(full: string, handlers: seq<Handler>, rules: PathRules)
    requires rules.applies(full, full)
    ensures Applicable(MountedAt(full, handlers), full, rules) == handlers
  {
    if handlers != [] {
      ApplicableAll(full, handlers[1..], rules);
      assert MountedAt(full, handlers)[1..] == MountedAt(full, handlers[1..]);
      assert [handlers[0]] + handlers[1..] == handlers;
    }
  }

  lemma {:induction false} PastMiddleware(handlers: seq<Handler>, fns: seq<Fn>, full: string, inherited: seq<Handler>,
          before: seq<Handler>, local: seq<Mounted>, c: Collection, rules: PathRules)
    ensures WalkFns(Middlewares(handlers) + fns, full, inherited, before, local, c, rules)
         == WalkFns(fns, full, inherited, before + handlers, local + MountedAt(full, handlers), c, rules)
  {
    hide *;
    SplitMiddleware(handlers, full);
    if handlers == [] {
      assert Middlewares(handlers) + fns == fns && before + handlers == before && local + MountedAt(full, handlers)
               == local;
    } else {
      var h, rest := handlers[0], handlers[1..];
      assert handlers == [h] + rest;
      OneMiddleware(h, Middlewares(rest) + fns, full, inherited, before, local, c, rules);
      PastMiddleware(rest, fns, full, inherited, before + [h], local + [Mounted(full, h)], c, rules);
      Regroup([], Middleware(h), Middlewares(rest), fns);
      Regroup(before, h, rest, []);
      Regroup(local, Mounted(full, h), MountedAt(full, rest), []);
    }
  }

  lemma Regroup<T>(a: seq<T>, x: T, b: seq<T>, c: seq<T>)
    ensures a + [x] + b == a + ([x] + b) && [x] + b + c == [x] + (b + c)
  {
  }

  lemma SplitMiddleware(handlers: seq<Handler>, full: string)
    ensures Middlewares(handlers) ==
              if handlers == [] then [] else [Middleware(handlers[0])] + Middlewares(handlers[1..])
    ensures MountedAt(full, handlers) ==
              if handlers == [] then [] else [Mounted(full, handlers[0])] + MountedAt(full, handlers[1..])
  {
  }

  lemma OneMiddleware(h: Handler, rest: seq<Fn>, full: string, inherited: seq<Handler>, before: seq<Handler>,
          local: seq<Mounted>, c: Collection, rules: PathRules)
    ensures WalkFns([Middleware(h)] + rest, full, inherited, before, local, c, rules)
         == WalkFns(rest, full, inherited, before + [h], local + [Mounted(full, h)], c, rules)
  {
    assert ([Middleware(h)] + rest)[1..] == rest;
  }

  /** Middleware given in the same call as a router is in the chain of that router's operations twice. */
  lemma SameCallListsTwice(handlers: seq<Handler>, entries: seq<Entry>, full: string, inherited: seq<Handler>,
          local: seq<Mounted>, c: Collection, rules: PathRules)
    requires rules.applies(full, full)
    ensures WalkFns(Middlewares(handlers) + [Router(entries)], full, inherited, [], local, c, rules).1
         == Walk(entries, full, inherited + (Applicable(local, full, rules) + handlers) + handlers, [], c, rules)
  {
    PastMiddleware(handlers, [Router(entries)], full, inherited, [], local, c, rules);
    ApplicableMore(local, full, handlers, rules);
    hide Walk;
    assert [] + handlers == handlers && [Router(entries)][1..] == [];
  }

  /** Middleware given in a call of its own, which Express runs alike, is there once. */
  lemma OwnCallListsOnce(handlers: seq<Handler>, entries: seq<Entry>, full: string, inherited: seq<Handler>,
          local: seq<Mounted>, c: Collection, rules: PathRules)
    requires rules.applies(full, full)
    ensures var (mounted, next) := WalkFns(Middlewares(handlers), full, inherited, [], local, c, rules);
            next == c && WalkFns([Router(entries)], full, inherited, [], mounted, c, rules).1
                      == Walk(entries, full, inherited + (Applicable(local, full, rules) + handlers), [], c, rules)
  {
    PastMiddleware(handlers, [], full, inherited, [], local, c, rules);
    ApplicableMore(local, full, handlers, rules);
    hide Walk;
    assert Middlewares(handlers) + [] == Middlewares(handlers) && [Router(entries)][1..] == [];
    var above := inherited + (Applicable(local, full, rules) + handlers);
    assert above + [] == above;
  }

  // ---------- The walk ----------

  class Expansion {
    const rules: PathRules
    var routes: seq<Recorded>
    var skipped: seq<Skipped>
    var shadowed: seq<Recorded>
    /** Method and path of every recorded operation. */
    var seen: set<(string, string)>

    ghost predicate Valid()
      reads this
    {
      forall verb, path :: (verb, path) in seen <==> Seen(State(), verb, path)
    }

    function State(): Collection
      reads this
    {
      Collection(routes, skipped, shadowed)
    }

    constructor (rules: PathRules)
      ensures Valid() && State() == Collection([], [], []) && this.rules == rules
    {
      this.rules := rules;
      routes, skipped, shadowed, seen := [], [], [], {};
    }

    method RecordOperation(verb: string, full: string, chain: seq<Handler>)
      requires Valid()
      modifies this
      ensures Valid() && State() == AddOperation(old(State()), verb, full, chain, rules)
    {
      var converted := rules.convert(full);
      if verb !in HTTP_METHODS || converted.None? {
        skipped := skipped + [Operation(verb, full)];
        return;
      }
      var recorded := Recorded(verb, full, converted.value, chain);
      if (verb, converted.value) in seen {
        shadowed := shadowed + [recorded];
      } else {
        SeenAfter(State(), recorded);
        seen := seen + {(verb, converted.value)};
        routes := routes + [recorded];
      }
    }

    method RecordRoute(registrations: seq<Registration>, full: string, above: seq<Handler>)
      requires Valid()
      modifies this
      ensures Valid() && State() == AddRoute(old(State()), registrations, full, above, rules)
    {
      var verbs := Verbs(registrations);
      if HasAll(registrations) && verbs == [] {
        skipped := skipped + [Operation("all", full)];
        return;
      }
      for i := 0 to |verbs|
        invariant Valid()
        invariant AddOperations(State(), verbs[i..], registrations, full, above, rules)
               == AddOperations(old(State()), verbs, registrations, full, above, rules)
      {
        RecordOperation(verbs[i], full, above + HandlersFor(registrations, verbs[i]));
        assert verbs[i..][1..] == verbs[i + 1..];
      }
    }

    method Mount(fns: seq<Fn>, full: string, inherited: seq<Handler>, before: seq<Mounted>)
            returns (local: seq<Mounted>)
      requires Valid()
      modifies this
      ensures Valid() && (local, State()) == WalkFns(fns, full, inherited, [], before, old(State()), rules)
      decreases fns, 0
    {
      local := before;
      var passed: seq<Handler> := [];
      for i := 0 to |fns|
        invariant Valid()
        invariant WalkFns(fns[i..], full, inherited, passed, local, State(), rules)
               == WalkFns(fns, full, inherited, [], before, old(State()), rules)
      {
        assert fns[i..][1..] == fns[i + 1..];
        match fns[i] {
          case Router(entries) => WalkRouter(entries, full, inherited + Applicable(local, full, rules) + passed);
          case Middleware(h) => passed, local := passed + [h], local + [Mounted(full, h)];
        }
      }
    }

    method WalkRouter(entries: seq<Entry>, prefix: string, inherited: seq<Handler>)
      requires Valid()
      modifies this
      ensures Valid() && State() == Walk(entries, prefix, inherited, [], old(State()), rules)
      decreases entries, 0
    {
      var local: seq<Mounted> := [];
      for i := 0 to |entries|
        invariant Valid()
        invariant Walk(entries[i..], prefix, inherited, local, State(), rules)
               == Walk(entries, prefix, inherited, [], old(State()), rules)
      {
        assert entries[i..][1..] == entries[i + 1..];
        local := VisitEntry(entries[i], prefix, inherited, local);
      }
    }

    method VisitEntry(e: Entry, prefix: string, inherited: seq<Handler>, before: seq<Mounted>)
            returns (local: seq<Mounted>)
      requires Valid()
      modifies this
      ensures Valid() && (local, State()) == WalkEntry(e, prefix, inherited, before, old(State()), rules)
      decreases e, 1
    {
      local := before;
      var paths := StringPaths(e.path);
      if paths.None? {
        skipped := skipped + [Unreadable(prefix)];
        return;
      }
      for i := 0 to |paths.value|
        invariant Valid()
        invariant WalkPaths(e, paths.value[i..], prefix, inherited, local, State(), rules)
               == WalkPaths(e, paths.value, prefix, inherited, before, old(State()), rules)
      {
        assert paths.value[i..][1..] == paths.value[i + 1..];
        var full := rules.join(prefix, paths.value[i]);
        match e {
          case Use(_, fns) => local := Mount(fns, full, inherited, local);
          case Route(_, registrations) => RecordRoute(registrations, full, inherited + Applicable(local, full, rules));
        }
      }
    }
  }

  lemma SeenAfter(c: Collection, r: Recorded)
    ensures forall verb, path ::
      (Seen(c.(routes := c.routes + [r]), verb, path) <==> Seen(c, verb, path) || (verb == r.verb && path == r.path))
  {
    var next := c.(routes := c.routes + [r]);
    forall verb, path | Seen(c, verb, path) ensures Seen(next, verb, path) {
      var i :| 0 <= i < |c.routes| && c.routes[i].verb == verb && c.routes[i].path == path;
      assert next.routes[i] == c.routes[i];
    }
    assert next.routes[|c.routes|] == r;
  }
}
