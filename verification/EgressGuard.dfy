/** The egress guard's allowlist: static entries, one list per feature, and the decision made on them. */
module EgressGuard {
  import opened InsertionMap
  import opened Wrappers

  /** A destination; no port means any port. */
  datatype Target = Target(host: string, port: Option<int>)

  datatype Entry = Entry(host: string, port: Option<int>, source: string)

  /** The destinations of one feature, under its source. */
  type Allowance = Item<seq<Entry>>

  /** How host names are spelled and compared; their parsing is not part of this model. */
  datatype HostRules = HostRules(normalize: string -> string, loopback: string -> bool, same: (string, string) -> bool)

  const DATABASE := "db"
  const ENVIRONMENT := "env"

  predicate Reserved(source: string) {
    source == DATABASE || source == ENVIRONMENT
  }

  // ---------- Features' lists, in the order their sources were first set ----------

  function Listed(dynamic: seq<Allowance>): seq<Entry> {
    if dynamic == [] then [] else dynamic[0].value + Listed(dynamic[1..])
  }

  /** Every list belongs to a feature, and every entry in it carries the feature's name and a usable destination. */
  ghost predicate Tagged(dynamic: seq<Allowance>) {
    forall a :: a in dynamic ==> OwnEntries(a)
  }

  ghost predicate OwnEntries(a: Allowance) {
    && !Reserved(a.key)
    && forall e :: e in a.value ==> e.source == a.key && Usable(e)
  }

  predicate Usable(e: Entry) {
    e.host != "" && (e.port.Some? ==> 1 <= e.port.value <= 65535)
  }

  ghost predicate FromConfiguration(fixed: seq<Entry>) {
    forall e :: e in fixed ==> Reserved(e.source)
  }

  // ---------- The decision ----------

  predicate Matches(rules: HostRules, e: Entry, host: string, port: Option<int>) {
    rules.same(e.host, rules.normalize(host)) && (e.port.None? || port.None? || e.port == port)
  }

  predicate AlwaysAllowed(rules: HostRules, host: string) {
    host == "" || rules.loopback(host)
  }

  predicate AnyMatches(rules: HostRules, entries: seq<Entry>, host: string, port: Option<int>) {
    exists i :: 0 <= i < |entries| && Matches(rules, entries[i], host, port)
  }

  /** Offline, only the database's own entries are looked at. */
  predicate Allows(rules: HostRules, entries: seq<Entry>, offline: bool, host: string, port: Option<int>) {
    || AlwaysAllowed(rules, host)
    || exists i :: 0 <= i < |entries| && (!offline || entries[i].source == DATABASE)
         && Matches(rules, entries[i], host, port)
  }

  function FromDatabase(entries: seq<Entry>): seq<Entry> {
    if entries == [] then []
    else (if entries[0].source == DATABASE then [entries[0]] else []) + FromDatabase(entries[1..])
  }

  lemma {:induction false} ListedBelongs(dynamic: seq<Allowance>)
    requires Tagged(dynamic)
    ensures forall e :: e in Listed(dynamic) ==> !Reserved(e.source)
  {
    if dynamic != [] {
      assert OwnEntries(dynamic[0]);
      ListedBelongs(dynamic[1..]);
    }
  }

  /** With the guard offline the decision is the database entries' alone: no feature and no setting can change it. */
  lemma OfflineIsTheDatabaseAlone(rules: HostRules, fixed: seq<Entry>, dynamic: seq<Allowance>, host: string,
          port: Option<int>)
    requires Tagged(dynamic)
    ensures Allows(rules, fixed + Listed(dynamic), true, host, port)
       <==> AlwaysAllowed(rules, host) || AnyMatches(rules, FromDatabase(fixed), host, port)
  {
    ListedBelongs(dynamic);
    var all := fixed + Listed(dynamic);
    DatabaseMatches(rules, fixed, host, port);
    if i :| 0 <= i < |all| && all[i].source == DATABASE && Matches(rules, all[i], host, port) {
      assert i >= |fixed| ==> all[i] in Listed(dynamic);
      assert fixed[i] == all[i];
    }
    if i :| 0 <= i < |fixed| && fixed[i].source == DATABASE && Matches(rules, fixed[i], host, port) {
      assert all[i] == fixed[i];
    }
  }

  lemma {:induction false} DatabaseMatches(rules: HostRules, fixed: seq<Entry>, host: string, port: Option<int>)
    ensures AnyMatches(rules, FromDatabase(fixed), host, port)
       <==> exists i :: 0 <= i < |fixed| && fixed[i].source == DATABASE && Matches(rules, fixed[i], host, port)
  {
    if fixed != [] {
      var rest := fixed[1..];
      DatabaseMatches(rules, rest, host, port);
      var head := if fixed[0].source == DATABASE then [fixed[0]] else [];
      AnyMatchesAppend(rules, head, FromDatabase(rest), host, port);
      if i :| 0 <= i < |rest| && rest[i].source == DATABASE && Matches(rules, rest[i], host, port) {
        assert fixed[i + 1] == rest[i];
      }
      if i :| 0 <= i < |fixed| && fixed[i].source == DATABASE && Matches(rules, fixed[i], host, port) {
        if i == 0 {
          assert Matches(rules, head[0], host, port);
        } else {
          assert rest[i - 1] == fixed[i];
        }
      }
    }
  }

  lemma AnyMatchesAppend(rules: HostRules, a: seq<Entry>, b: seq<Entry>, host: string, port: Option<int>)
    ensures AnyMatches(rules, a + b, host, port)
       <==> AnyMatches(rules, a, host, port) || AnyMatches(rules, b, host, port)
  {
    hide Matches;
    if i :| 0 <= i < |a| && Matches(rules, a[i], host, port) {
      assert (a + b)[i] == a[i];
    }
    if i :| 0 <= i < |b| && Matches(rules, b[i], host, port) {
      assert (a + b)[|a| + i] == b[i];
    }
  }

  predicate FeatureMatches(rules: HostRules, dynamic: seq<Allowance>, source: string, host: string, port: Option<int>) {
    Find(dynamic, source).Some? && AnyMatches(rules, Find(dynamic, source).value, host, port)
  }

  /** Online, a destination is allowed exactly when a static entry or some feature's current list matches it. */
  lemma OnlineIsStaticOrAFeature(rules: HostRules, fixed: seq<Entry>, dynamic: seq<Allowance>, host: string,
          port: Option<int>)
    requires DistinctKeys(dynamic)
    ensures Allows(rules, fixed + Listed(dynamic), false, host, port)
       <==> || AlwaysAllowed(rules, host) || AnyMatches(rules, fixed, host, port)
            || exists source :: FeatureMatches(rules, dynamic, source, host, port)
  {
    AnyMatchesAppend(rules, fixed, Listed(dynamic), host, port);
    ListedMatches(rules, dynamic, host, port);
  }

  lemma {:induction false} ListedMatches(rules: HostRules, dynamic: seq<Allowance>, host: string, port: Option<int>)
    requires DistinctKeys(dynamic)
    ensures AnyMatches(rules, Listed(dynamic), host, port)
       <==> exists source :: FeatureMatches(rules, dynamic, source, host, port)
  {
    hide AnyMatches;
    if dynamic == [] {
      assert !AnyMatches(rules, [], host, port) by { NothingMatches(rules, host, port); }
    } else {
      var a, rest := dynamic[0], dynamic[1..];
      ListedMatches(rules, rest, host, port);
      AnyMatchesAppend(rules, a.value, Listed(rest), host, port);
      FoundIsThere(rest, a.key);
      assert FeatureMatches(rules, dynamic, a.key, host, port) <==> AnyMatches(rules, a.value, host, port);
      forall source | source != a.key
        ensures FeatureMatches(rules, dynamic, source, host, port)
           <==> FeatureMatches(rules, rest, source, host, port) {}
      assert !FeatureMatches(rules, rest, a.key, host, port);
    }
  }

  lemma NothingMatches(rules: HostRules, host: string, port: Option<int>)
    ensures !AnyMatches(rules, [], host, port)
  {
  }

  // ---------- The guard ----------

  /** The destination a target names, under its source. */
  function EntryOf(rules: HostRules, t: Target, source: string): Entry {
    Entry(rules.normalize(t.host), t.port, source)
  }

  function EntriesOf(rules: HostRules, targets: seq<Target>, source: string): seq<Entry> {
    seq(|targets|, k requires 0 <= k < |targets| => EntryOf(rules, targets[k], source))
  }

  predicate AllUsable(rules: HostRules, targets: seq<Target>, source: string) {
    forall t :: t in targets ==> Usable(EntryOf(rules, t, source))
  }

  function ToEntry(rules: HostRules, t: Target, source: string): (r: Result<Entry, string>)
    ensures r.Ok? <==> Usable(EntryOf(rules, t, source))
    ensures r.Ok? <==> rules.normalize(t.host) != "" && (t.port.Some? ==> 1 <= t.port.value <= 65535)
    ensures r.Ok? ==> r.value == EntryOf(rules, t, source)
  {
    var host := rules.normalize(t.host);
    if host == "" then Err("egress allowance needs a host")
    else if t.port.Some? && (t.port.value < 1 || t.port.value > 65535) then Err("egress allowance has an invalid port")
    else Ok(Entry(host, t.port, source))
  }

  /** Every target as an entry, or the first error. */
  function ToEntries(rules: HostRules, targets: seq<Target>, source: string): (r: Result<seq<Entry>, string>)
    ensures r.Ok? ==> forall e :: e in r.value ==> e.source == source && Usable(e)
  {
    if targets == [] then Ok([])
    else
      match ToEntry(rules, targets[0], source)
      case Err(e) => Err(e)
      case Ok(first) =>
        match ToEntries(rules, targets[1..], source)
        case Err(e) => Err(e)
        case Ok(rest) => Ok([first] + rest)
  }

  /** All targets go through or none does: exactly when every one is usable, each is an entry, in the order given. */
  lemma {:induction false} ToEntriesIsAll(rules: HostRules, targets: seq<Target>, source: string)
    ensures ToEntries(rules, targets, source).Ok? <==> AllUsable(rules, targets, source)
    ensures ToEntries(rules, targets, source).Ok? ==>
              ToEntries(rules, targets, source).value == EntriesOf(rules, targets, source)
  {
    if targets != [] {
      var first, rest := targets[0], targets[1..];
      ToEntriesIsAll(rules, rest, source);
      assert targets == [first] + rest;
      assert AllUsable(rules, targets, source) <==>
        Usable(EntryOf(rules, first, source)) && AllUsable(rules, rest, source);
      assert EntriesOf(rules, targets, source) == [EntryOf(rules, first, source)] + EntriesOf(rules, rest, source);
    }
  }

  /** The target's host under any spelling, on its port; a name lookup has no port, and a target may leave it open. */
  predicate Names(rules: HostRules, t: Target, host: string, port: Option<int>) {
    && rules.same(rules.normalize(t.host), rules.normalize(host))
    && (t.port.None? || port.None? || port == t.port)
  }

  lemma EntryMatchesNames(rules: HostRules, t: Target, source: string, host: string, port: Option<int>)
    ensures Matches(rules, EntryOf(rules, t, source), host, port) <==> Names(rules, t, host, port)
  {
  }

  /** Online, a listed target is let through on its port, on every port if it names none, and for a name lookup. */
  lemma ListedTargetsPass(rules: HostRules, entries: seq<Entry>, targets: seq<Target>, source: string)
    requires forall e :: e in EntriesOf(rules, targets, source) ==> e in entries
    ensures forall t, host, port :: t in targets && Names(rules, t, host, port) ==>
              Allows(rules, entries, false, host, port)
  {
    forall t, host, port | t in targets && Names(rules, t, host, port)
      ensures Allows(rules, entries, false, host, port)
    {
      var k :| 0 <= k < |targets| && targets[k] == t;
      assert EntriesOf(rules, targets, source)[k] == EntryOf(rules, t, source);
      assert EntryOf(rules, t, source) in entries;
      var i :| 0 <= i < |entries| && entries[i] == EntryOf(rules, t, source);
      assert Matches(rules, entries[i], host, port);
    }
  }

  /**
   * The guard's whole state. `active` is the list the installed guard (or the unpatched helper before it) decides on.
   */
  datatype Allowlist = Allowlist(fixed: seq<Entry>, dynamic: seq<Allowance>, active: seq<Entry>, offline: bool,
    installed: bool) {
    ghost predicate Valid() {
      DistinctKeys(dynamic) && Tagged(dynamic) && FromConfiguration(fixed) && (offline ==> installed)
    }

    ghost predicate Synced() {
      active == fixed + Listed(dynamic)
    }

    function Sync(): Allowlist {
      this.(active := fixed + Listed(dynamic))
    }

    /** The new state and whether the call threw. */
    function SetAllowance(rules: HostRules, source: string, targets: seq<Target>): (Allowlist, bool) {
      if Reserved(source) then (this, true)
      else if targets == [] then (this.(dynamic := Without(dynamic, source)).Sync(), false)
      else
        match ToEntries(rules, targets, source)
        case Err(_) => (this, true)
        case Ok(entries) => (this.(dynamic := Put(dynamic, source, entries)).Sync(), false)
    }

    function ClearAllowance(source: string): Allowlist {
      this.(dynamic := Without(dynamic, source)).Sync()
    }
  }

  lemma SetAllowanceKeeps(a: Allowlist, rules: HostRules, source: string, targets: seq<Target>)
    requires a.Valid()
    ensures var (next, threw) := a.SetAllowance(rules, source, targets);
            && next.Valid() && next.fixed == a.fixed && next.offline == a.offline && next.installed == a.installed
            && (threw ==> next == a) && (!threw || a.Synced() ==> next.Synced())
            && (threw <==> Reserved(source) || !AllUsable(rules, targets, source))
            && forall other :: Find(next.dynamic, other) ==
                 if other != source || threw then Find(a.dynamic, other)
                 else if targets == [] then None
                 else Some(EntriesOf(rules, targets, source))
  {
    ToEntriesIsAll(rules, targets, source);
    if !Reserved(source) {
      if targets == [] {
        ClearAllowanceKeeps(a, source);
      } else if ToEntries(rules, targets, source).Ok? {
        var entries := ToEntries(rules, targets, source).value;
        PutItems(a.dynamic, source, entries);
        assert OwnEntries(Item(source, entries));
        forall other ensures Find(Put(a.dynamic, source, entries), other) ==
          if other == source then Some(entries) else Find(a.dynamic, other)
        {
          FindAfterPut(a.dynamic, source, entries, other);
        }
      }
    }
  }

  /** After a call that does not throw every target it named is let through online. */
  lemma NamedTargetsPass(a: Allowlist, rules: HostRules, source: string, targets: seq<Target>)
    requires a.Valid() && !a.SetAllowance(rules, source, targets).1
    ensures forall t, host, port :: t in targets && Names(rules, t, host, port) ==>
              Allows(rules, a.SetAllowance(rules, source, targets).0.active, false, host, port)
  {
    SetAllowanceKeeps(a, rules, source, targets);
    var next := a.SetAllowance(rules, source, targets).0;
    if targets != [] {
      FoundIsListed(next.dynamic, source);
      hide Allowlist.SetAllowance, Find, Listed, Allowlist.Valid, EntriesOf, Allows, Names;
      ListedTargetsPass(rules, next.active, targets, source);
    }
  }

  lemma {:induction false} FoundIsListed(dynamic: seq<Allowance>, source: string)
    requires Find(dynamic, source).Some?
    ensures forall e :: e in Find(dynamic, source).value ==> e in Listed(dynamic)
  {
    if dynamic[0].key != source {
      FoundIsListed(dynamic[1..], source);
    }
  }

  lemma ClearAllowanceKeeps(a: Allowlist, source: string)
    requires a.Valid()
    ensures var next := a.ClearAllowance(source);
            && next.Valid() && next.Synced() && next.fixed == a.fixed && next.offline == a.offline
                 && next.installed == a.installed
            && forall other :: Find(next.dynamic, other) == if other == source then None else Find(a.dynamic, other)
  {
    WithoutItems(a.dynamic, source);
    forall other ensures Find(Without(a.dynamic, source), other) ==
      if other == source then None else Find(a.dynamic, other) {
      FindAfterWithout(a.dynamic, source, other);
    }
  }

  class Guard {
    const rules: HostRules
    var staticEntries: seq<Entry>
    var dynamicEntries: seq<Allowance>
    /** The list of the unpatched helper, used until a guard is installed. */
    var helperEntries: seq<Entry>
    /** The installed guard's list and whether it is offline. */
    var handle: Option<(seq<Entry>, bool)>

    constructor (rules: HostRules)
      ensures this.rules == rules && State() == Allowlist([], [], [], false, false)
    {
      this.rules := rules;
      staticEntries, dynamicEntries, helperEntries, handle := [], [], [], None;
    }

    function State(): Allowlist
      reads this
    {
      Allowlist(staticEntries, dynamicEntries,
        if handle.Some? then handle.value.0 else helperEntries, handle.Some? && handle.value.1, handle.Some?)
    }

    method Sync()
      modifies this
      ensures State() == old(State()).Sync()
      ensures handle.Some? ==> helperEntries == old(helperEntries)
    {
      var all, i := staticEntries, 0;
      while i < |dynamicEntries|
        invariant i <= |dynamicEntries| && all + Listed(dynamicEntries[i..]) == staticEntries + Listed(dynamicEntries)
        invariant State() == old(State()) && helperEntries == old(helperEntries)
      {
        assert dynamicEntries[i..][1..] == dynamicEntries[i + 1..];
        all := all + dynamicEntries[i].value;
        i := i + 1;
      }
      assert all == staticEntries + Listed(dynamicEntries);
      if handle.Some? {
        handle := Some((all, handle.value.1));
      } else {
        helperEntries := all;
      }
    }

    method SetAllowance(source: string, targets: seq<Target>) returns (threw: bool)
      modifies this
      ensures (State(), threw) == old(State()).SetAllowance(rules, source, targets)
      ensures threw <==> Reserved(source) || !AllUsable(rules, targets, source)
      ensures !threw && targets != [] ==>
                State().dynamic == Put(old(State()).dynamic, source, EntriesOf(rules, targets, source))
    {
      ToEntriesIsAll(rules, targets, source);
      assert targets == [] ==> AllUsable(rules, targets, source);
      if Reserved(source) {
        return true;
      }
      if targets == [] {
        dynamicEntries := Without(dynamicEntries, source);
      } else {
        var entries := ToEntries(rules, targets, source);
        if entries.Err? {
          return true;
        }
        dynamicEntries := Put(dynamicEntries, source, entries.value);
      }
      Sync();
      threw := false;
    }

    method ClearAllowance(source: string)
      modifies this
      ensures State() == old(State()).ClearAllowance(source)
    {
      dynamicEntries := Without(dynamicEntries, source);
      Sync();
    }

    /**
     * Installs the guard once and (re)reads the configuration. `allow` are the parsed targets of the setting, none when
     * it does not parse; `database` are the database's entries; `patched` says whether the patches took. A second call
     * cannot change whether the guard is offline. A call that throws leaves the list in force as it was.
     */
    method Install(allow: Option<seq<Target>>, database: seq<Entry>, offline: bool, patched: bool) returns (threw: bool)
      requires forall e :: e in database ==> e.source == DATABASE
      modifies this
      ensures threw <==>
                || allow.None? || !AllUsable(rules, allow.value, ENVIRONMENT)
                || (!old(State()).installed && !patched)
      ensures old(State()).Valid() ==> State().Valid()
      ensures State().dynamic == old(State()).dynamic
      // A call that fails at its patches has read the configuration already; the next synchronization puts it in force.
      ensures threw ==>
                State().fixed == if allow.None? || !AllUsable(rules, allow.value, ENVIRONMENT) then old(State()).fixed
                                 else database + EntriesOf(rules, allow.value, ENVIRONMENT)
      ensures threw ==> && State().active == old(State()).active && State().installed == old(State()).installed
                        && State().offline == old(State()).offline
      ensures !threw ==> && State().Synced() && State().installed
                         && State().fixed == database + EntriesOf(rules, allow.value, ENVIRONMENT)
                         && State().offline == if old(State()).installed then old(State()).offline else offline
      ensures !threw && !State().offline ==>
                forall t, host, port :: t in allow.value && Names(rules, t, host, port) ==>
                  Allows(rules, State().active, false, host, port)
    {
      if allow.None? {
        return true;
      }
      ToEntriesIsAll(rules, allow.value, ENVIRONMENT);
      var fromEnv := ToEntries(rules, allow.value, ENVIRONMENT);
      if fromEnv.Err? {
        return true;
      }
      staticEntries := database + fromEnv.value;
      if handle.None? {
        if !patched {
          return true;
        }
        handle := Some(([], offline));
      }
      Sync();
      ListedTargetsPass(rules, State().active, allow.value, ENVIRONMENT);
      threw := false;
    }

    /** Whether a connection to the host and port may be made; no port is a name lookup. */
    method IsAllowed(host: string, port: Option<int>) returns (allowed: bool)
      ensures allowed <==> Allows(rules, State().active, State().offline, host, port)
      ensures allowed <==>
                || host == "" || rules.loopback(host)
                || exists e :: e in State().active && (State().offline ==> e.source == "db")
                               && rules.same(e.host, rules.normalize(host))
                               && (e.port.None? || port.None? || e.port == port)
    {
      if host == "" || rules.loopback(host) {
        return true;
      }
      var h := rules.normalize(host);
      var entries, offline := State().active, State().offline;
      for i := 0 to |entries|
        invariant forall j :: 0 <= j < i ==>
                    !((!offline || entries[j].source == DATABASE) && Matches(rules, entries[j], host, port))
      {
        var e := entries[i];
        if offline && e.source != DATABASE {
          continue;
        }
        if rules.same(e.host, h) && (e.port.None? || port.None? || e.port == port) {
          return true;
        }
      }
      return false;
    }
  }
}
