/**
 * What the recorded chains hold. A chain is said to be every function that runs for the operation, outermost first: the
 * middleware of each router on the way to it that applies to its path, then its own handlers.
 */
module RouteChains {
  import opened Wrappers
  import opened RouteExpansion

  /**
   * A router on the way: what was mounted on it before the way goes on, at which path, and in the same call in front.
   */
  datatype Level = Level(mounted: seq<Mounted>, path: string, before: seq<Handler>)

  /** One thing the walk meets: an operation with the way to it, or a registration it cannot read. */
  datatype Item =
    | Skip(what: Skipped)
    | Op(verb: string, full: string, levels: seq<Level>, mounted: seq<Mounted>, handlers: seq<Handler>)

  // ---------- Everything the walk meets, in order ----------

  function RouteItems(registrations: seq<Registration>, full: string, levels: seq<Level>,
          local: seq<Mounted>): seq<Item> {
    if HasAll(registrations) && Verbs(registrations) == [] then [Skip(Operation("all", full))]
    else OpItems(Verbs(registrations), registrations, full, levels, local)
  }

  function OpItems(verbs: seq<string>, registrations: seq<Registration>, full: string, levels: seq<Level>,
          local: seq<Mounted>): seq<Item> {
    if verbs == [] then []
    else
      [Op(verbs[0], full, levels, local, HandlersFor(registrations, verbs[0]))]
      + OpItems(verbs[1..], registrations, full, levels, local)
  }

  function Visit(entries: seq<Entry>, prefix: string, levels: seq<Level>, local: seq<Mounted>,
          rules: PathRules): seq<Item>
    decreases entries, 0, 0
  {
    if entries == [] then []
    else
      var (nextLocal, items) := VisitEntry(entries[0], prefix, levels, local, rules);
      items + Visit(entries[1..], prefix, levels, nextLocal, rules)
  }

  function VisitEntry(e: Entry, prefix: string, levels: seq<Level>, local: seq<Mounted>, rules: PathRules)
      : (seq<Mounted>, seq<Item>)
    decreases e, 1, 0
  {
    match StringPaths(e.path)
    case None => (local, [Skip(Unreadable(prefix))])
    case Some(paths) => VisitPaths(e, paths, prefix, levels, local, rules)
  }

  function VisitPaths(e: Entry, paths: seq<string>, prefix: string, levels: seq<Level>, local: seq<Mounted>,
          rules: PathRules): (seq<Mounted>, seq<Item>)
    decreases e, 0, |paths|
  {
    if paths == [] then (local, [])
    else
      var full := rules.join(prefix, paths[0]);
      var (nextLocal, items) := match e
        case Use(_, fns) => VisitFns(fns, full, levels, [], local, rules)
        case Route(_, registrations) => (local, RouteItems(registrations, full, levels, local));
      var (last, rest) := VisitPaths(e, paths[1..], prefix, levels, nextLocal, rules);
      (last, items + rest)
  }

  function VisitFns(fns: seq<Fn>, full: string, levels: seq<Level>, before: seq<Handler>, local: seq<Mounted>,
          rules: PathRules): (seq<Mounted>, seq<Item>)
    decreases fns, 0, 0
  {
    if fns == [] then (local, [])
    else
      match fns[0]
      case Router(entries) =>
        var items := Visit(entries, full, levels + [Level(local, full, before)], [], rules);
        var (last, rest) := VisitFns(fns[1..], full, levels, before, local, rules);
        (last, items + rest)
      case Middleware(h) => VisitFns(fns[1..], full, levels, before + [h], local + [Mounted(full, h)], rules)
  }

  // ---------- The two chains of an operation ----------

  /**
   * What the recorder puts in front: the middleware that applies to each mount path, and again what is in front there.
   */
  function RecordedAbove(levels: seq<Level>, rules: PathRules): seq<Handler> {
    if levels == [] then []
    else
      var n := |levels| - 1;
      RecordedAbove(levels[..n], rules) + Applicable(levels[n].mounted, levels[n].path, rules) + levels[n].before
  }

  /** What is said to run: the middleware that applies to the operation's own path. */
  function RunningAbove(levels: seq<Level>, full: string, rules: PathRules): seq<Handler> {
    if levels == [] then []
    else
      var n := |levels| - 1;
      RunningAbove(levels[..n], full, rules) + Applicable(levels[n].mounted, full, rules)
  }

  function RecordedChain(op: Item, rules: PathRules): seq<Handler>
    requires op.Op?
  {
    RecordedAbove(op.levels, rules) + Applicable(op.mounted, op.full, rules) + op.handlers
  }

  function RunningChain(op: Item, rules: PathRules): seq<Handler>
    requires op.Op?
  {
    RunningAbove(op.levels, op.full, rules) + Applicable(op.mounted, op.full, rules) + op.handlers
  }

  // ---------- The walk records the recorded chains ----------

  function AddItem(c: Collection, item: Item, rules: PathRules): Collection {
    match item
    case Skip(what) => c.(skipped := c.skipped + [what])
    case Op(verb, full, _, _, _) => AddOperation(c, verb, full, RecordedChain(item, rules), rules)
  }

  function Gather(c: Collection, items: seq<Item>, rules: PathRules): Collection
    decreases |items|
  {
    if items == [] then c else Gather(AddItem(c, items[0], rules), items[1..], rules)
  }

  lemma {:induction false} GatherBoth(c: Collection, a: seq<Item>, b: seq<Item>, rules: PathRules)
    ensures Gather(c, a + b, rules) == Gather(Gather(c, a, rules), b, rules)
    decreases |a|
  {
    hide AddItem;
    if a == [] {
      assert a + b == b;
    } else {
      assert (a + b)[1..] == a[1..] + b;
      GatherBoth(AddItem(c, a[0], rules), a[1..], b, rules);
    }
  }

  lemma GatherOne(c: Collection, item: Item, rules: PathRules)
    ensures Gather(c, [item], rules) == AddItem(c, item, rules)
  {
    hide AddItem;
    assert [item][1..] == [];
    assert Gather(AddItem(c, item, rules), [], rules) == AddItem(c, item, rules);
  }

  lemma {:induction false} OpsAreGathered(c: Collection, verbs: seq<string>, registrations: seq<Registration>,
          full: string, levels: seq<Level>, local: seq<Mounted>, rules: PathRules)
    ensures Gather(c, OpItems(verbs, registrations, full, levels, local), rules)
         == AddOperations(c, verbs, registrations, full, RecordedAbove(levels, rules) + Applicable(local, full, rules),
           rules)
    decreases |verbs|
  {
    hide AddOperation, HandlersFor, RecordedAbove, Applicable;
    if verbs != [] {
      var op := Op(verbs[0], full, levels, local, HandlersFor(registrations, verbs[0]));
      var rest := OpItems(verbs[1..], registrations, full, levels, local);
      GatherBoth(c, [op], rest, rules);
      GatherOne(c, op, rules);
      OpsAreGathered(AddItem(c, op, rules), verbs[1..], registrations, full, levels, local, rules);
    }
  }

  lemma RouteIsGathered(c: Collection, registrations: seq<Registration>, full: string, levels: seq<Level>,
          local: seq<Mounted>, rules: PathRules)
    ensures Gather(c, RouteItems(registrations, full, levels, local), rules)
         == AddRoute(c, registrations, full, RecordedAbove(levels, rules) + Applicable(local, full, rules), rules)
  {
    hide AddOperations, OpItems, RecordedAbove, Applicable;
    if HasAll(registrations) && Verbs(registrations) == [] {
      GatherOne(c, Skip(Operation("all", full)), rules);
    } else {
      OpsAreGathered(c, Verbs(registrations), registrations, full, levels, local, rules);
    }
  }

  /** The walk collects exactly what is met, in order, each operation with its recorded chain. */
  lemma {:induction false} WalkGathers(entries: seq<Entry>, prefix: string, levels: seq<Level>, local: seq<Mounted>,
          c: Collection, rules: PathRules)
    ensures Walk(entries, prefix, RecordedAbove(levels, rules), local, c, rules)
         == Gather(c, Visit(entries, prefix, levels, local, rules), rules)
    decreases entries, 0, 0
  {
    hide RecordedAbove, AddItem;
    if entries != [] {
      var (nextLocal, items) := VisitEntry(entries[0], prefix, levels, local, rules);
      EntryGathers(entries[0], prefix, levels, local, c, rules);
      WalkGathers(entries[1..], prefix, levels, nextLocal, Gather(c, items, rules), rules);
      GatherBoth(c, items, Visit(entries[1..], prefix, levels, nextLocal, rules), rules);
    }
  }

  lemma {:induction false} EntryGathers(e: Entry, prefix: string, levels: seq<Level>, local: seq<Mounted>,
          c: Collection, rules: PathRules)
    ensures var (nextLocal, items) := VisitEntry(e, prefix, levels, local, rules);
            WalkEntry(e, prefix, RecordedAbove(levels, rules), local, c, rules) == (nextLocal, Gather(c, items, rules))
    decreases e, 1, 0
  {
    hide RecordedAbove;
    match StringPaths(e.path) {
      case None => GatherOne(c, Skip(Unreadable(prefix)), rules);
      case Some(paths) => PathsGather(e, paths, prefix, levels, local, c, rules);
    }
  }

  lemma {:induction false} PathsGather(e: Entry, paths: seq<string>, prefix: string, levels: seq<Level>,
          local: seq<Mounted>, c: Collection, rules: PathRules)
    ensures var (last, items) := VisitPaths(e, paths, prefix, levels, local, rules);
            WalkPaths(e, paths, prefix, RecordedAbove(levels, rules), local, c, rules)
              == (last, Gather(c, items, rules))
    decreases e, 0, |paths|
  {
    hide RecordedAbove, AddItem, AddRoute, RouteItems, Applicable;
    if paths != [] {
      var full := rules.join(prefix, paths[0]);
      var (nextLocal, items) := match e
        case Use(_, fns) => VisitFns(fns, full, levels, [], local, rules)
        case Route(_, registrations) => (local, RouteItems(registrations, full, levels, local));
      match e {
        case Use(_, fns) => FnsGather(fns, full, levels, [], local, c, rules);
        case Route(_, registrations) => RouteIsGathered(c, registrations, full, levels, local, rules);
      }
      PathsGather(e, paths[1..], prefix, levels, nextLocal, Gather(c, items, rules), rules);
      GatherBoth(c, items, VisitPaths(e, paths[1..], prefix, levels, nextLocal, rules).1, rules);
    }
  }

  lemma {:induction false} FnsGather(fns: seq<Fn>, full: string, levels: seq<Level>, before: seq<Handler>,
          local: seq<Mounted>, c: Collection, rules: PathRules)
    ensures var (last, items) := VisitFns(fns, full, levels, before, local, rules);
            WalkFns(fns, full, RecordedAbove(levels, rules), before, local, c, rules) == (last, Gather(c, items, rules))
    decreases fns, 0, 0
  {
    hide RecordedAbove, AddItem, Applicable;
    if fns != [] {
      match fns[0] {
        case Router(entries) =>
          var level := Level(local, full, before);
          OneLevelDown(levels, level, rules);
          WalkGathers(entries, full, levels + [level], [], c, rules);
          var items := Visit(entries, full, levels + [level], [], rules);
          FnsGather(fns[1..], full, levels, before, local, Gather(c, items, rules), rules);
          GatherBoth(c, items, VisitFns(fns[1..], full, levels, before, local, rules).1, rules);
        case Middleware(h) => FnsGather(fns[1..], full, levels, before + [h], local + [Mounted(full, h)], c, rules);
      }
    }
  }

  lemma OneLevelDown(levels: seq<Level>, level: Level, rules: PathRules)
    ensures RecordedAbove(levels + [level], rules)
         == RecordedAbove(levels, rules) + Applicable(level.mounted, level.path, rules) + level.before
  {
    assert (levels + [level])[..|levels|] == levels;
  }

  // ---------- What is collected of what is met ----------

  /** The document can hold the operation: its method is one of HTTP's and its path can be written. */
  predicate Recordable(item: Item, rules: PathRules) {
    item.Op? && item.verb in HTTP_METHODS && rules.convert(item.full).Some?
  }

  /** An operation of the same method and written path. */
  predicate Same(a: Item, b: Item, rules: PathRules)
    requires a.Op? && b.Op?
  {
    a.verb == b.verb && rules.convert(a.full) == rules.convert(b.full)
  }

  /** Of the operations that can be recorded, item `k` is not the first of its method and written path. */
  predicate Repeats(items: seq<Item>, k: nat, rules: PathRules)
    requires k < |items| && items[k].Op?
  {
    exists j :: 0 <= j < k && Recordable(items[j], rules) && Same(items[j], items[k], rules)
  }

  /** The operation as the document holds it. */
  function Written(op: Item, rules: PathRules): Recorded
    requires Recordable(op, rules)
  {
    Recorded(op.verb, op.full, rules.convert(op.full).value, RecordedChain(op, rules))
  }

  /** Of the first `n` items, in order: the first of each operation, the others of it, and what cannot be recorded. */
  function Collected(items: seq<Item>, n: nat, rules: PathRules): Collection
    requires n <= |items|
  {
    if n == 0 then Collection([], [], [])
    else
      var c, item := Collected(items, n - 1, rules), items[n - 1];
      if item.Skip? then c.(skipped := c.skipped + [item.what])
      else if !Recordable(item, rules) then c.(skipped := c.skipped + [Operation(item.verb, item.full)])
      else if Repeats(items, n - 1, rules) then c.(shadowed := c.shadowed + [Written(item, rules)])
      else c.(routes := c.routes + [Written(item, rules)])
  }

  /** The operations seen are those recordable so far. */
  lemma {:induction false} SeenSoFar(items: seq<Item>, n: nat, verb: string, path: string, rules: PathRules)
    requires n <= |items|
    ensures Seen(Collected(items, n, rules), verb, path)
       <==> exists j :: 0 <= j < n && Recordable(items[j], rules) && items[j].verb == verb
                        && rules.convert(items[j].full) == Some(path)
  {
    hide RecordedChain, Seen;
    if n == 0 {
      NothingSeen(verb, path);
    } else {
      SeenSoFar(items, n - 1, verb, path, rules);
      var c, item := Collected(items, n - 1, rules), items[n - 1];
      if Recordable(item, rules) {
        if Repeats(items, n - 1, rules) {
          SameRoutesSeen(c, Collected(items, n, rules), verb, path);
        } else {
          SeenAfter(c, Written(item, rules));
        }
      } else {
        SameRoutesSeen(c, Collected(items, n, rules), verb, path);
      }
    }
  }

  lemma NothingSeen(verb: string, path: string)
    ensures !Seen(Collection([], [], []), verb, path)
  {
  }

  lemma SameRoutesSeen(c: Collection, d: Collection, verb: string, path: string)
    requires c.routes == d.routes
    ensures Seen(c, verb, path) <==> Seen(d, verb, path)
  {
  }

  lemma {:induction false} GatherCollects(items: seq<Item>, n: nat, rules: PathRules)
    requires n <= |items|
    ensures Gather(Collection([], [], []), items[..n], rules) == Collected(items, n, rules)
  {
    hide RecordedChain, Seen;
    var empty := Collection([], [], []);
    if n > 0 {
      var item := items[n - 1];
      GatherCollects(items, n - 1, rules);
      assert items[..n] == items[..n - 1] + [item];
      GatherBoth(empty, items[..n - 1], [item], rules);
      GatherOne(Collected(items, n - 1, rules), item, rules);
      if Recordable(item, rules) {
        SeenSoFar(items, n - 1, item.verb, rules.convert(item.full).value, rules);
      }
    }
  }

  /**
   * The collection of a whole tree: each operation that can be written is recorded the first time it is met, under its
   * method, its Express path and the converted path, with its chain; it is shadowed when met again, and everything else
   * is skipped.
   */
  lemma WalkCollects(entries: seq<Entry>, rules: PathRules)
    ensures var items := Visit(entries, "/", [], [], rules);
            Walk(entries, "/", [], [], Collection([], [], []), rules) == Collected(items, |items|, rules)
  {
    hide Visit, Gather, Collected, Walk;
    var items := Visit(entries, "/", [], [], rules);
    assert RecordedAbove([], rules) == [];
    WalkGathers(entries, "/", [], [], Collection([], [], []), rules);
    GatherCollects(items, |items|, rules);
    assert items[..|items|] == items;
  }

  // ---------- Lists of paths ----------

  function WithPath(e: Entry, path: RawPath): Entry {
    match e
    case Use(_, fns) => Use(path, fns)
    case Route(_, registrations) => Route(path, registrations)
  }

  function OneByOne(e: Entry, paths: seq<string>): seq<Entry> {
    if paths == [] then [] else [WithPath(e, One(paths[0]))] + OneByOne(e, paths[1..])
  }

  lemma {:induction false} PathsOfAnyEntry(e: Entry, path: RawPath, paths: seq<string>, prefix: string,
          inherited: seq<Handler>, local: seq<Mounted>, c: Collection, rules: PathRules)
    ensures WalkPaths(WithPath(e, path), paths, prefix, inherited, local, c, rules)
         == WalkPaths(e, paths, prefix, inherited, local, c, rules)
    decreases |paths|
  {
    hide AddRoute, WalkFns, Applicable;
    if paths != [] {
      var full := rules.join(prefix, paths[0]);
      var (nextLocal, next) := match e
        case Use(_, fns) => WalkFns(fns, full, inherited, [], local, c, rules)
        case Route(_, registrations) => (local,
          AddRoute(c, registrations, full, inherited + Applicable(local, full, rules), rules));
      PathsOfAnyEntry(e, path, paths[1..], prefix, inherited, nextLocal, next, rules);
    }
  }

  lemma OnePathAtATime(e: Entry, paths: seq<string>, prefix: string, inherited: seq<Handler>, local: seq<Mounted>,
          c: Collection, rules: PathRules)
    requires paths != []
    ensures var (nextLocal, next) := WalkEntry(WithPath(e, One(paths[0])), prefix, inherited, local, c, rules);
            WalkPaths(e, paths, prefix, inherited, local, c, rules)
              == WalkPaths(e, paths[1..], prefix, inherited, nextLocal, next, rules)
  {
    hide AddRoute, WalkFns, Applicable;
    assert [paths[0]][1..] == [];
    PathsOfAnyEntry(e, One(paths[0]), [paths[0]], prefix, inherited, local, c, rules);
  }

  /** An entry on a list of paths is the same as one entry for each of them, in order. */
  lemma {:induction false} ListIsEachPath(e: Entry, paths: seq<string>, rest: seq<Entry>, prefix: string,
          inherited: seq<Handler>, local: seq<Mounted>, c: Collection, rules: PathRules)
    ensures paths != [] ==>
              Walk([WithPath(e, Many(paths))] + rest, prefix, inherited, local, c, rules)
                == Walk(OneByOne(e, paths) + rest, prefix, inherited, local, c, rules)
    ensures Walk([WithPath(e, Many([]))] + rest, prefix, inherited, local, c, rules)
         == Walk([WithPath(e, Pattern)] + rest, prefix, inherited, local, c, rules)
         == Walk(rest, prefix, inherited, local, c.(skipped := c.skipped + [Unreadable(prefix)]), rules)
  {
    assert ([WithPath(e, Many([]))] + rest)[1..] == rest && ([WithPath(e, Pattern)] + rest)[1..] == rest;
    if paths != [] {
      assert ([WithPath(e, Many(paths))] + rest)[1..] == rest;
      PathsOfAnyEntry(e, Many(paths), paths, prefix, inherited, local, c, rules);
      EachPathWalked(e, paths, rest, prefix, inherited, local, c, rules);
    }
  }

  lemma {:induction false} EachPathWalked(e: Entry, paths: seq<string>, rest: seq<Entry>, prefix: string,
          inherited: seq<Handler>, local: seq<Mounted>, c: Collection, rules: PathRules)
    ensures var (nextLocal, next) := WalkPaths(e, paths, prefix, inherited, local, c, rules);
            Walk(OneByOne(e, paths) + rest, prefix, inherited, local, c, rules)
              == Walk(rest, prefix, inherited, nextLocal, next, rules)
    decreases |paths|
  {
    hide WalkEntry;
    if paths == [] {
      assert OneByOne(e, paths) + rest == rest;
    } else {
      var first := WithPath(e, One(paths[0]));
      var (nextLocal, next) := WalkEntry(first, prefix, inherited, local, c, rules);
      assert (OneByOne(e, paths) + rest)[1..] == OneByOne(e, paths[1..]) + rest;
      OnePathAtATime(e, paths, prefix, inherited, local, c, rules);
      EachPathWalked(e, paths[1..], rest, prefix, inherited, nextLocal, next, rules);
    }
  }

  // ---------- When the recorded chain is the one that runs ----------

  /** What holds of the source's path functions: what applies at a path applies to everything below it. */
  ghost predicate Sound(rules: PathRules) {
    forall m, p, q :: rules.applies(m, p) ==> rules.applies(m, rules.join(p, q))
  }

  /** What applies at `path` applies at `full`. */
  ghost predicate Below(path: string, full: string, rules: PathRules) {
    forall m :: rules.applies(m, path) ==> rules.applies(m, full)
  }

  /** The path is below every router on the way to it. */
  ghost predicate AllBelow(levels: seq<Level>, full: string, rules: PathRules) {
    forall level :: level in levels ==> Below(level.path, full, rules)
  }

  /** Some router on the way has middleware in front of it in its own call. */
  predicate InFront(levels: seq<Level>) {
    exists level :: level in levels && level.before != []
  }

  /** Some router on the way has middleware mounted below its path that applies to the operation's. */
  predicate MountedBelow(levels: seq<Level>, full: string, rules: PathRules) {
    exists level, m :: level in levels && m in level.mounted && rules.applies(m.path, full)
      && !rules.applies(m.path, level.path)
  }

  lemma {:induction false} FewerApply(local: seq<Mounted>, path: string, full: string, rules: PathRules)
    requires Below(path, full, rules)
    ensures |Applicable(local, path, rules)| <= |Applicable(local, full, rules)|
    ensures (forall m :: m in local && rules.applies(m.path, full) ==> rules.applies(m.path, path)) ==>
              Applicable(local, path, rules) == Applicable(local, full, rules)
    ensures |Applicable(local, path, rules)| == |Applicable(local, full, rules)| ==>
              forall m :: m in local && rules.applies(m.path, full) ==> rules.applies(m.path, path)
  {
    if local != [] {
      FewerApply(local[1..], path, full, rules);
      assert local == [local[0]] + local[1..];
    }
  }

  /** Without middleware in front the recorded part is never longer, without any below it is never shorter. */
  lemma {:induction false} AboveCompared(levels: seq<Level>, full: string, rules: PathRules)
    requires AllBelow(levels, full, rules)
    ensures var recorded, running := RecordedAbove(levels, rules), RunningAbove(levels, full, rules);
            && (!InFront(levels) && !MountedBelow(levels, full, rules) ==> recorded == running)
            && (!InFront(levels) ==>
                 |recorded| <= |running| && (|recorded| == |running| ==> !MountedBelow(levels, full, rules)))
            && (!MountedBelow(levels, full, rules) ==>
                 |running| <= |recorded| && (|running| == |recorded| ==> !InFront(levels)))
    decreases |levels|
  {
    if levels != [] {
      var n := |levels| - 1;
      var last, rest := levels[n], levels[..n];
      assert levels == rest + [last];
      AboveCompared(rest, full, rules);
      assert Below(last.path, full, rules);
      FewerApply(last.mounted, last.path, full, rules);
      LastLevel(levels, full, rules);
      hide AllBelow, Below, InFront, MountedBelow, Applicable;
    }
  }

  lemma LastLevel(levels: seq<Level>, full: string, rules: PathRules)
    requires levels != []
    ensures var n := |levels| - 1;
            && (InFront(levels) <==> InFront(levels[..n]) || levels[n].before != [])
            && (MountedBelow(levels, full, rules) <==>
                  || MountedBelow(levels[..n], full, rules)
                  || !(forall m :: m in levels[n].mounted && rules.applies(m.path, full) ==>
                       rules.applies(m.path, levels[n].path)))
  {
    var n := |levels| - 1;
    assert levels == levels[..n] + [levels[n]];
  }

  ghost predicate ItemsBelow(items: seq<Item>, rules: PathRules) {
    forall op :: op in items && op.Op? ==> AllBelow(op.levels, op.full, rules)
  }

  lemma OneStepBelow(levels: seq<Level>, prefix: string, sub: string, rules: PathRules)
    requires Sound(rules) && AllBelow(levels, prefix, rules)
    ensures AllBelow(levels, rules.join(prefix, sub), rules)
  {
    forall level | level in levels ensures Below(level.path, rules.join(prefix, sub), rules) {
      assert Below(level.path, prefix, rules);
    }
  }

  lemma {:induction false} OpItemsBelow(verbs: seq<string>, registrations: seq<Registration>, full: string,
          levels: seq<Level>, local: seq<Mounted>, rules: PathRules)
    requires AllBelow(levels, full, rules)
    ensures ItemsBelow(OpItems(verbs, registrations, full, levels, local), rules)
    decreases |verbs|
  {
    hide AllBelow, HandlersFor;
    if verbs != [] {
      OpItemsBelow(verbs[1..], registrations, full, levels, local, rules);
    }
  }

  lemma {:induction false} VisitBelow(entries: seq<Entry>, prefix: string, levels: seq<Level>, local: seq<Mounted>,
          rules: PathRules)
    requires Sound(rules) && AllBelow(levels, prefix, rules)
    ensures ItemsBelow(Visit(entries, prefix, levels, local, rules), rules)
    decreases entries, 0, 0
  {
    hide Sound, AllBelow;
    if entries != [] {
      var (nextLocal, items) := VisitEntry(entries[0], prefix, levels, local, rules);
      if StringPaths(entries[0].path).Some? {
        PathsBelow(entries[0], StringPaths(entries[0].path).value, prefix, levels, local, rules);
      }
      VisitBelow(entries[1..], prefix, levels, nextLocal, rules);
    }
  }

  lemma {:induction false} PathsBelow(e: Entry, paths: seq<string>, prefix: string, levels: seq<Level>,
          local: seq<Mounted>, rules: PathRules)
    requires Sound(rules) && AllBelow(levels, prefix, rules)
    ensures ItemsBelow(VisitPaths(e, paths, prefix, levels, local, rules).1, rules)
    decreases e, 0, |paths|
  {
    hide Sound, AllBelow;
    if paths != [] {
      var full := rules.join(prefix, paths[0]);
      OneStepBelow(levels, prefix, paths[0], rules);
      match e {
        case Use(_, fns) =>
          FnsBelow(fns, full, levels, [], local, rules);
          PathsBelow(e, paths[1..], prefix, levels, VisitFns(fns, full, levels, [], local, rules).0, rules);
        case Route(_, registrations) =>
          OpItemsBelow(Verbs(registrations), registrations, full, levels, local, rules);
          PathsBelow(e, paths[1..], prefix, levels, local, rules);
      }
    }
  }

  lemma {:induction false} FnsBelow(fns: seq<Fn>, full: string, levels: seq<Level>, before: seq<Handler>,
          local: seq<Mounted>, rules: PathRules)
    requires Sound(rules) && AllBelow(levels, full, rules)
    ensures ItemsBelow(VisitFns(fns, full, levels, before, local, rules).1, rules)
    decreases fns, 0, 0
  {
    hide Sound;
    if fns != [] {
      match fns[0] {
        case Router(entries) =>
          VisitBelow(entries, full, levels + [Level(local, full, before)], [], rules);
          hide AllBelow;
          FnsBelow(fns[1..], full, levels, before, local, rules);
        case Middleware(h) => FnsBelow(fns[1..], full, levels, before + [h], local + [Mounted(full, h)], rules);
      }
    }
  }

  /**
   * The operation's recorded chain is the one that runs if and only if neither of the two mistakes is made on its way.
   */
  ghost predicate ExactlyWhenPlain(op: Item, rules: PathRules)
    requires op.Op?
  {
    var front, below := InFront(op.levels), MountedBelow(op.levels, op.full, rules);
    (front && below) || (RecordedChain(op, rules) == RunningChain(op, rules) <==> !front && !below)
  }

  lemma ChainCompared(op: Item, rules: PathRules)
    requires op.Op? && AllBelow(op.levels, op.full, rules)
    ensures ExactlyWhenPlain(op, rules)
  {
    AboveCompared(op.levels, op.full, rules);
    hide RecordedAbove, RunningAbove, InFront, MountedBelow, AllBelow;
  }

  /**
   * The whole walk: it collects what it meets in order, each operation with its recorded chain. As long as the way to
   * an operation does not make both mistakes, that chain is the one that runs if and only if no router on the way has
   * middleware in front of it in its own `use` call, and none has earlier middleware mounted below its path that
   * applies.
   */
  lemma WalkRecordsWhatRuns(entries: seq<Entry>, rules: PathRules)
    requires Sound(rules)
    ensures var items, empty := Visit(entries, "/", [], [], rules), Collection([], [], []);
            && Walk(entries, "/", [], [], empty, rules) == Gather(empty, items, rules)
            && forall op :: op in items && op.Op? ==> ExactlyWhenPlain(op, rules)
  {
    WalkGathers(entries, "/", [], [], Collection([], [], []), rules);
    VisitBelow(entries, "/", [], [], rules);
    hide Sound, ExactlyWhenPlain, AllBelow, Visit;
    forall op | op in Visit(entries, "/", [], [], rules) && op.Op? ensures ExactlyWhenPlain(op, rules) {
      ChainCompared(op, rules);
    }
  }

  lemma NoneMounted(full: string, rules: PathRules)
    ensures Applicable([], full, rules) == []
  {
  }

  lemma OneMounted(m: Mounted, full: string, rules: PathRules)
    ensures Applicable([m], full, rules) == HandlerOf(m, full, rules)
  {
    assert [m][1..] == [];
    assert HandlerOf(m, full, rules) + [] == HandlerOf(m, full, rules);
  }

  lemma OneAbove(level: Level, full: string, rules: PathRules)
    ensures RecordedAbove([level], rules) == Applicable(level.mounted, level.path, rules) + level.before
    ensures RunningAbove([level], full, rules) == Applicable(level.mounted, full, rules)
  {
    hide Applicable;
    assert [level][..0] == [];
    assert RecordedAbove([], rules) == [] && RunningAbove([], full, rules) == [];
    assert [] + Applicable(level.mounted, level.path, rules) == Applicable(level.mounted, level.path, rules);
    assert [] + Applicable(level.mounted, full, rules) == Applicable(level.mounted, full, rules);
  }

  /**
   * Making both, the two chains can be equal by chance: one function missed below the mount, and listed twice at it.
   */
  lemma BothMistakesMayCancel(mount: string, deep: string, full: string, h: Handler, rules: PathRules)
    requires rules.applies(mount, mount) && rules.applies(mount, full) && rules.applies(deep, full)
               && !rules.applies(deep, mount)
    ensures var op := Op("get", full, [Level([Mounted(deep, h), Mounted(mount, h)], mount, [h])], [], []);
            && InFront(op.levels) && MountedBelow(op.levels, full, rules)
            && RecordedChain(op, rules) == RunningChain(op, rules) == [h, h]
  {
    var mounted := [Mounted(deep, h), Mounted(mount, h)];
    var level := Level(mounted, mount, [h]);
    assert mounted == [Mounted(deep, h)] + [Mounted(mount, h)];
    forall path ensures Applicable(mounted, path, rules)
      == HandlerOf(mounted[0], path, rules) + HandlerOf(mounted[1], path, rules) {
      ApplicableInOrder([Mounted(deep, h)], [Mounted(mount, h)], path, rules);
      OneMounted(mounted[0], path, rules);
      OneMounted(mounted[1], path, rules);
    }
    OneAbove(level, full, rules);
    assert level in [level] && mounted[0] in level.mounted;
    hide Applicable, RecordedAbove, RunningAbove;
    assert Applicable([], full, rules) == [] by { NoneMounted(full, rules); }
    assert [h] + [h] == [h, h] && [] + [h] == [h];
  }

  lemma OneEntry(e: Entry, path: string, prefix: string, levels: seq<Level>, local: seq<Mounted>, rules: PathRules)
    requires e.path == One(path)
    ensures var full := rules.join(prefix, path);
            VisitEntry(e, prefix, levels, local, rules) ==
              if e.Use? then VisitFns(e.fns, full, levels, [], local, rules)
              else (local, RouteItems(e.registrations, full, levels, local))
  {
    hide VisitFns, RouteItems;
    var full := rules.join(prefix, path);
    var (next, items) :=
      if e.Use? then VisitFns(e.fns, full, levels, [], local, rules)
        else (local, RouteItems(e.registrations, full, levels, local));
    assert [path][1..] == [] && VisitPaths(e, [], prefix, levels, next, rules) == (next, []);
    assert VisitPaths(e, [path], prefix, levels, local, rules) == (next, items + []);
    assert items + [] == items;
  }

  lemma LastEntry(e: Entry, prefix: string, levels: seq<Level>, local: seq<Mounted>, rules: PathRules)
    ensures Visit([e], prefix, levels, local, rules) == VisitEntry(e, prefix, levels, local, rules).1
  {
    hide VisitEntry;
    assert [e][1..] == [];
    var items := VisitEntry(e, prefix, levels, local, rules).1;
    assert items + [] == items;
  }

  lemma LastFn(fn: Fn, full: string, levels: seq<Level>, local: seq<Mounted>, rules: PathRules)
    ensures VisitFns([fn], full, levels, [], local, rules) ==
      if fn.Router? then (local, Visit(fn.entries, full, levels + [Level(local, full, [])], [], rules))
      else (local + [Mounted(full, fn.handler)], [])
  {
    hide Visit;
    assert [fn][1..] == [];
    if fn.Router? {
      var items := Visit(fn.entries, full, levels + [Level(local, full, [])], [], rules);
      assert items + [] == items;
    }
  }

  /** The one operation of a route with one handler for GET. */
  function GetOf(full: string, levels: seq<Level>, g: Handler): Item {
    Op("get", full, levels, [], [g])
  }

  lemma OneGet(full: string, levels: seq<Level>, g: Handler)
    ensures RouteItems([Registration(Some("get"), [g])], full, levels, []) == [GetOf(full, levels, g)]
  {
    var registrations := [Registration(Some("get"), [g])];
    assert registrations[1..] == [] && Verbs([]) == [] && HandlersFor([], "get") == [];
    assert Verbs(registrations) == ["get"] && HandlersFor(registrations, "get") == [g];
    assert !HasAll(registrations) && ["get"][1..] == [];
    assert OpItems([], registrations, full, levels, []) == [];
  }

  /** A function mounted, and then a router with one GET route. */
  function MountedDeeper(deep: string, mount: string, sub: string, h: Handler, g: Handler): seq<Entry> {
    [Use(One(deep), [Middleware(h)]), Use(One(mount), [Router([Route(One(sub), [Registration(Some("get"), [g])])])])]
  }

  /**
   * Middleware mounted below a router's path, on `/a/b` before a router on `/a`, runs for its `/b` and is not in the
   * chain.
   */
  lemma MiddlewareBelowTheMountIsMissed(deep: string, mount: string, sub: string, h: Handler, g: Handler,
          rules: PathRules)
    requires var at, full := rules.join("/", mount), rules.join(rules.join("/", mount), sub);
             rules.applies(rules.join("/", deep), full) && !rules.applies(rules.join("/", deep), at)
    ensures var at, full := rules.join("/", mount), rules.join(rules.join("/", mount), sub);
            var op := GetOf(full, [Level([Mounted(rules.join("/", deep), h)], at, [])], g);
            && Visit(MountedDeeper(deep, mount, sub, h, g), "/", [], [], rules) == [op]
            && RecordedChain(op, rules) == [g] && RunningChain(op, rules) == [h, g]
  {
    var at, full := rules.join("/", mount), rules.join(rules.join("/", mount), sub);
    var mounted := [Mounted(rules.join("/", deep), h)];
    var op := GetOf(full, [Level(mounted, at, [])], g);
    DeeperIsVisited(deep, mount, sub, h, g, rules);
    OneMounted(mounted[0], at, rules);
    OneMounted(mounted[0], full, rules);
    OneAbove(op.levels[0], full, rules);
    NoneMounted(full, rules);
    hide Visit, MountedDeeper, Applicable, RecordedAbove, RunningAbove;
    assert [] + [] + [g] == [g] && [h] + [] + [g] == [h, g];
  }

  lemma DeeperIsVisited(deep: string, mount: string, sub: string, h: Handler, g: Handler, rules: PathRules)
    ensures var at, full := rules.join("/", mount), rules.join(rules.join("/", mount), sub);
            var op := GetOf(full, [Level([Mounted(rules.join("/", deep), h)], at, [])], g);
            Visit(MountedDeeper(deep, mount, sub, h, g), "/", [], [], rules) == [op]
  {
    var at, full := rules.join("/", mount), rules.join(rules.join("/", mount), sub);
    var mounted := [Mounted(rules.join("/", deep), h)];
    var levels := [Level(mounted, at, [])];
    var entries := MountedDeeper(deep, mount, sub, h, g);
    var route := Route(One(sub), [Registration(Some("get"), [g])]);
    OneEntry(entries[0], deep, "/", [], [], rules);
    LastFn(Middleware(h), rules.join("/", deep), [], [], rules);
    assert entries[1..] == [entries[1]];
    LastEntry(entries[1], "/", [], mounted, rules);
    OneEntry(entries[1], mount, "/", [], mounted, rules);
    LastFn(Router([route]), at, [], mounted, rules);
    LastEntry(route, at, levels, [], rules);
    OneEntry(route, sub, at, levels, [], rules);
    OneGet(full, levels, g);
    hide VisitEntry, VisitFns, RouteItems, GetOf;
    assert [] + [Mounted(rules.join("/", deep), h)] == mounted && [] + levels == levels;
    assert [] + [GetOf(full, levels, g)] == [GetOf(full, levels, g)];
  }
}
