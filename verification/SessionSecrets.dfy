/** The secrets store and the egress guard as one state: what they agree on through every run. */
module SessionSecrets {
  import opened Wrappers
  import opened EgressGuard
  import opened InsertionMap
  import opened SecretRegistry

  // ---------- The store and the guard together ----------

  datatype World = World(store: map<Name, string>, registry: Registry, ollamaModel: Option<string>,
        smtpServer: Option<Server>, list: Allowlist)

  function WithCloudKey(w: World, name: Name, key: string, rules: Rules): World
    requires Cloud(name)
  {
    var registry := Register(w.registry, w.store.Values, key, CLOUD_KEY_SCRUB_MIN, rules);
    var (list, _) := w.list.SetAllowance(rules.hosts, CloudSource(name), [Target(CloudHost(name), Some(443))]);
    w.(registry := registry, store := w.store[name := key], list := list)
  }

  /** What follows the validation of a base URL. The store is written before the guard is asked. */
  function WithBaseUrl(w: World, url: string, model: Option<string>, rules: Rules): (World, bool) {
    var target := rules.targetOf(url);
    var stored := w.(store := w.store[OllamaUrl := url], ollamaModel := model);
    if rules.loopback(target.host) then (stored.(list := w.list.ClearAllowance(OLLAMA)), false)
    else
      var (list, threw) := w.list.SetAllowance(rules.hosts, OLLAMA, [target]);
      (stored.(list := list), threw)
  }

  function WithPassword(w: World, password: string, rules: Rules): World {
    w.(registry := Register(w.registry, w.store.Values, password, SMTP_PASSWORD_SCRUB_MIN, rules),
       store := w.store[SmtpPassword := password])
  }

  /** `local` and `safe` are the answers of the two address checks, `security` the one asked for or by the port. */
  function WithMailServer(w: World, server: Server, local: bool, safe: bool, rules: Rules): (World, bool) {
    if server.security == NoTls && !local then (w, true)
    else if rules.loopback(server.host)
      then (w.(list := w.list.ClearAllowance(SMTP), smtpServer := Some(server)), false)
    else if server.port !in SMTP_PORTS || !safe then (w, true)
    else
      var (list, threw) := w.list.SetAllowance(rules.hosts, SMTP, [Target(server.host, Some(server.port))]);
      if threw then (w, true) else (w.(list := list, smtpServer := Some(server)), false)
  }

  function Forgotten(w: World, name: Name): World {
    var gone := w.(store := w.store - {name});
    match name
    case Anthropic => gone.(list := w.list.ClearAllowance(CloudSource(Anthropic)))
    case Openai => gone.(list := w.list.ClearAllowance(CloudSource(Openai)))
    case OllamaUrl => gone.(ollamaModel := None, list := w.list.ClearAllowance(OLLAMA))
    case SmtpPassword => gone.(smtpServer := None, list := w.list.ClearAllowance(SMTP))
  }

  /**
   * One uninterrupted step. A setter that waits for a validation is its part after the wait, so that any other steps
   * may come between; a validation that fails is no step at all. The last two are other features' and the start-up's
   * calls.
   */
  datatype Action =
    | CloudKey(name: Name, key: string)
    | BaseUrl(url: string, model: Option<string>)
    | Password(password: string)
    | Smtp(server: Server, local: bool, safe: bool)
    | Forget(name: Name)
    | Feature(source: string, targets: seq<Target>)
    | Configure(fixed: seq<Entry>, offline: bool)

  ghost predicate Possible(a: Action) {
    && (a.CloudKey? ==> Cloud(a.name))
    && (a.Feature? ==> !SessionSource(a.source))
    && (a.Configure? ==> FromConfiguration(a.fixed))
  }

  function Do(w: World, a: Action, rules: Rules): World {
    match a
    case CloudKey(name, key) => if Cloud(name) then WithCloudKey(w, name, key, rules) else w
    case BaseUrl(url, model) => WithBaseUrl(w, url, model, rules).0
    case Password(password) => WithPassword(w, password, rules)
    case Smtp(server, local, safe) => WithMailServer(w, server, local, safe, rules).0
    case Forget(name) => Forgotten(w, name)
    case Feature(source, targets) => w.(list := w.list.SetAllowance(rules.hosts, source, targets).0)
    case Configure(fixed, offline) =>
      w.(list := w.list.(fixed := fixed, offline :=
        if w.list.installed then w.list.offline else offline, installed := true).Sync())
  }

  function Start(): World {
    World(map[], Registry([], {}), None, None, Allowlist([], [], [], false, false))
  }

  function Run(actions: seq<Action>, rules: Rules): World {
    if actions == [] then Start() else Do(Run(actions[..|actions| - 1], rules), actions[|actions| - 1], rules)
  }

  // ---------- What the two modules agree on ----------

  function CloudEntry(name: Name, rules: Rules): Entry {
    Entry(rules.hosts.normalize(CloudHost(name)), Some(443), CloudSource(name))
  }

  function OllamaEntry(url: string, rules: Rules): Entry {
    Entry(rules.hosts.normalize(rules.targetOf(url).host), rules.targetOf(url).port, OLLAMA)
  }

  function SmtpEntry(server: Server, rules: Rules): Entry {
    Entry(rules.hosts.normalize(server.host), Some(server.port), SMTP)
  }

  /** A cloud host is allowed exactly while its key is stored. */
  predicate CloudAgrees(w: World, name: Name, rules: Rules) {
    Find(w.list.dynamic, CloudSource(name)) == if name in w.store then Some([CloudEntry(name, rules)]) else None
  }

  /** The mail server is allowed exactly while one that is not on this machine is recorded. */
  predicate SmtpAgrees(w: World, rules: Rules) {
    Find(w.list.dynamic, SMTP) ==
      if w.smtpServer.None? || rules.loopback(w.smtpServer.value.host) then None
      else Some([SmtpEntry(w.smtpServer.value, rules)])
  }

  /**
   * The model server is allowed exactly while a base URL that is not on this machine is stored, and only that target.
   */
  predicate OllamaAgrees(w: World, rules: Rules) {
    Find(w.list.dynamic, OLLAMA) ==
      if OllamaUrl !in w.store || rules.loopback(rules.targetOf(w.store[OllamaUrl]).host) then None
      else Some([OllamaEntry(w.store[OllamaUrl], rules)])
  }

  /** A base URL the guard takes: on this machine, or with a host and a port from 1 to 65535. */
  predicate Dialable(url: string, rules: Rules) {
    rules.loopback(rules.targetOf(url).host) || Usable(OllamaEntry(url, rules))
  }

  /** At most 64 different values are registered, and every stored key and password is one of them. */
  ghost predicate RegistryOk(w: World) {
    && Distinct(w.registry.values) && |w.registry.values| <= MAX_REGISTRATIONS
    && forall name :: name in w.store && name != OllamaUrl ==> w.store[name] in w.registry.values
  }

  /** A recorded mail server that is not on this machine has a mail port. */
  predicate OnMailPort(w: World, rules: Rules) {
    w.smtpServer.Some? && !rules.loopback(w.smtpServer.value.host) ==> w.smtpServer.value.port in SMTP_PORTS
  }

  ghost predicate Agree(w: World, rules: Rules) {
    && w.list.Valid() && w.list.Synced()
    && CloudAgrees(w, Anthropic, rules) && CloudAgrees(w, Openai, rules) && SmtpAgrees(w, rules)
    && RegistryOk(w) && (w.ollamaModel.Some? ==> OllamaUrl in w.store) && OnMailPort(w, rules)
  }

  /** A list is found only with usable entries. */
  lemma {:induction false} FoundIsUsable(dynamic: seq<Allowance>, source: string)
    requires Tagged(dynamic) && Find(dynamic, source).Some?
    ensures forall e :: e in Find(dynamic, source).value ==> e.source == source && Usable(e)
  {
    assert OwnEntries(dynamic[0]);
    if dynamic[0].key != source {
      FoundIsUsable(dynamic[1..], source);
    }
  }

  lemma FoundInTheList(list: Allowlist, source: string)
    requires list.Valid() && Find(list.dynamic, source).Some?
    ensures forall e :: e in Find(list.dynamic, source).value ==> e.source == source && Usable(e)
  {
    FoundIsUsable(list.dynamic, source);
  }

  lemma OneTarget(rules: HostRules, t: Target, source: string)
    ensures var e := Entry(rules.normalize(t.host), t.port, source);
            (AllUsable(rules, [t], source) <==> Usable(e)) && EntriesOf(rules, [t], source) == [e]
  {
    assert t in [t];
  }

  /** Changing one source's list and one name's value leaves what is agreed about the other sources and names. */
  lemma OthersKeep(w: World, next: World, source: string, changed: Name, rules: Rules)
    requires forall other :: other != source ==> Find(next.list.dynamic, other) == Find(w.list.dynamic, other)
    requires forall name :: name != changed ==> (name in next.store <==> name in w.store)
    requires forall name :: name != changed && name in w.store ==> next.store[name] == w.store[name]
    ensures source != CloudSource(Anthropic) && changed != Anthropic ==>
              (CloudAgrees(next, Anthropic, rules) <==> CloudAgrees(w, Anthropic, rules))
    ensures source != CloudSource(Openai) && changed != Openai ==>
              (CloudAgrees(next, Openai, rules) <==> CloudAgrees(w, Openai, rules))
    ensures source != OLLAMA && changed != OllamaUrl ==> (OllamaAgrees(next, rules) <==> OllamaAgrees(w, rules))
    ensures source != SMTP && next.smtpServer == w.smtpServer ==> (SmtpAgrees(next, rules) <==> SmtpAgrees(w, rules))
  {
    hide Find, CloudEntry, OllamaEntry, SmtpEntry;
  }

  lemma CloudKeyKeeps(w: World, name: Name, key: string, rules: Rules)
    requires rules.Lawful() && Cloud(name) && Agree(w, rules)
    ensures var next := WithCloudKey(w, name, key, rules);
            next.store == w.store[name := key] && Agree(next, rules)
              && (OllamaAgrees(next, rules) <==> OllamaAgrees(w, rules))
  {
    hide Register, Find, Put, AllUsable, EntriesOf, Listed, Allowlist.SetAllowance, Allowlist.Valid, Allowlist.Synced,
      SmtpAgrees, OllamaAgrees, RegistryOk;
    SetAllowanceKeeps(w.list, rules.hosts, CloudSource(name), [Target(CloudHost(name), Some(443))]);
    OneTarget(rules.hosts, Target(CloudHost(name), Some(443)), CloudSource(name));
    var next := WithCloudKey(w, name, key, rules);
    OthersKeep(w, next, CloudSource(name), name, rules);
    RegistryKeeps(w, name, key, CLOUD_KEY_SCRUB_MIN, rules);
    SameStore(w.(registry := next.registry, store := next.store), next);
  }

  lemma RegistryKeeps(w: World, name: Name, value: string, minLength: nat, rules: Rules)
    requires RegistryOk(w) && name != OllamaUrl
    ensures RegistryOk(w.(registry := Register(w.registry, w.store.Values, value, minLength, rules),
              store := w.store[name := value]))
  {
    RegisterKeeps(w.registry, w.store, value, minLength, rules);
    hide Register, Distinct;
    forall other | other in w.store && other != name && other != OllamaUrl ensures w.store[other] in w.store.Values {}
  }

  lemma SameStore(w: World, next: World)
    requires RegistryOk(w) && next.registry == w.registry && next.store == w.store
    ensures RegistryOk(next)
  {
    SameRegistry(w, next);
  }

  lemma OllamaKeeps(w: World, url: string, model: Option<string>, rules: Rules)
    requires Agree(w, rules)
    ensures var (next, threw) := WithBaseUrl(w, url, model, rules);
            && Agree(next, rules) && (OllamaAgrees(next, rules) <==> Dialable(url, rules))
            && (threw <==> !Dialable(url, rules))
            && next.store == w.store[OllamaUrl := url] && next.ollamaModel == model
            && (threw ==> next.list == w.list)
  {
    hide Find, Put, Without, AllUsable, EntriesOf, Listed, Allowlist.SetAllowance, Allowlist.ClearAllowance,
      Allowlist.Valid, Allowlist.Synced, Distinct, CloudAgrees, SmtpAgrees;
    var target, next := rules.targetOf(url), WithBaseUrl(w, url, model, rules).0;
    if rules.loopback(target.host) {
      ClearAllowanceKeeps(w.list, OLLAMA);
    } else {
      SetAllowanceKeeps(w.list, rules.hosts, OLLAMA, [target]);
      OneTarget(rules.hosts, target, OLLAMA);
      if Find(w.list.dynamic, OLLAMA) == Some([OllamaEntry(url, rules)]) {
        FoundInTheList(w.list, OLLAMA);
        assert OllamaEntry(url, rules) in [OllamaEntry(url, rules)];
      }
    }
    OthersKeep(w, next, OLLAMA, OllamaUrl, rules);
  }

  lemma PasswordKeeps(w: World, password: string, rules: Rules)
    requires Agree(w, rules)
    ensures var next := WithPassword(w, password, rules);
            next.store == w.store[SmtpPassword := password] && Agree(next, rules)
              && (OllamaAgrees(next, rules) <==> OllamaAgrees(w, rules))
  {
    hide Register, Find, Allowlist.Valid, Allowlist.Synced, RegistryOk, CloudAgrees, SmtpAgrees, OllamaAgrees;
    RegistryKeeps(w, SmtpPassword, password, SMTP_PASSWORD_SCRUB_MIN, rules);
    OthersKeep(w, WithPassword(w, password, rules), "", SmtpPassword, rules);
  }

  lemma SmtpKeeps(w: World, server: Server, local: bool, safe: bool, rules: Rules)
    requires Agree(w, rules)
    ensures var (next, threw) := WithMailServer(w, server, local, safe, rules);
            && Agree(next, rules) && (OllamaAgrees(next, rules) <==> OllamaAgrees(w, rules))
            && (threw ==> next == w) && (!threw ==> next.smtpServer == Some(server))
            && (!threw <==> && (server.security == NoTls ==> local)
                            && (rules.loopback(server.host)
                                 || (server.port in SMTP_PORTS && safe && Usable(SmtpEntry(server, rules)))))
  {
    hide Find, Put, Without, AllUsable, EntriesOf, Listed, Allowlist.SetAllowance, Allowlist.ClearAllowance,
      Allowlist.Valid, Allowlist.Synced, RegistryOk, CloudAgrees, OllamaAgrees;
    if rules.loopback(server.host) {
      ClearAllowanceKeeps(w.list, SMTP);
    } else {
      SetAllowanceKeeps(w.list, rules.hosts, SMTP, [Target(server.host, Some(server.port))]);
      OneTarget(rules.hosts, Target(server.host, Some(server.port)), SMTP);
    }
    var next := WithMailServer(w, server, local, safe, rules).0;
    OthersKeep(w, next, SMTP, SmtpPassword, rules);
    SameRegistry(w, next);
  }

  lemma SameRegistry(w: World, next: World)
    requires RegistryOk(w) && next.registry == w.registry
    requires forall name :: name in next.store && name != OllamaUrl ==>
               name in w.store && next.store[name] == w.store[name]
    ensures RegistryOk(next)
  {
  }

  lemma DeleteKeeps(w: World, name: Name, rules: Rules)
    requires Agree(w, rules)
    ensures var next := Forgotten(w, name);
            Agree(next, rules) && (OllamaAgrees(next, rules) <==> name == OllamaUrl || OllamaAgrees(w, rules))
  {
    var source := match name
      case Anthropic => CloudSource(Anthropic)
      case Openai => CloudSource(Openai)
      case OllamaUrl => OLLAMA
      case SmtpPassword => SMTP;
    var next := Forgotten(w, name);
    assert next.list == w.list.ClearAllowance(source);
    ClearAllowanceKeeps(w.list, source);
    SameRegistry(w, next);
    hide Find, Allowlist.ClearAllowance, Allowlist.Valid, Allowlist.Synced, RegistryOk;
    OthersKeep(w, next, source, name, rules);
  }

  lemma ActionKeeps(w: World, a: Action, rules: Rules)
    requires rules.Lawful() && Possible(a) && Agree(w, rules)
    ensures Agree(Do(w, a, rules), rules)
    ensures OllamaAgrees(Do(w, a, rules), rules) <==>
      if a.BaseUrl? then Dialable(a.url, rules) else a == Forget(OllamaUrl) || OllamaAgrees(w, rules)
  {
    match a
    case CloudKey(name, key) => CloudKeyKeeps(w, name, key, rules);
    case BaseUrl(url, model) => OllamaKeeps(w, url, model, rules);
    case Password(password) => PasswordKeeps(w, password, rules);
    case Smtp(server, local, safe) => SmtpKeeps(w, server, local, safe, rules);
    case Forget(name) => DeleteKeeps(w, name, rules);
    case Feature(source, targets) => SetAllowanceKeeps(w.list, rules.hosts, source, targets);
    case Configure(_, _) =>
  }

  /** The last base URL accepted since the last time it was forgotten, if any, is one the guard takes. */
  predicate OllamaSettled(actions: seq<Action>, rules: Rules) {
    if actions == [] then true
    else
      var last := actions[|actions| - 1];
      if last.BaseUrl? then Dialable(last.url, rules)
      else last == Forget(OllamaUrl) || OllamaSettled(actions[..|actions| - 1], rules)
  }

  /**
   * After every run, however the waiting setters interleave, the store and the guard agree on the cloud hosts and the
   * mail server. They agree on the model server exactly when the base URL set last is one the guard takes.
   */
  lemma {:induction false} EveryRunAgrees(actions: seq<Action>, rules: Rules)
    requires rules.Lawful() && forall i :: 0 <= i < |actions| ==> Possible(actions[i])
    ensures Agree(Run(actions, rules), rules)
    ensures OllamaAgrees(Run(actions, rules), rules) <==> OllamaSettled(actions, rules)
  {
    if actions == [] {
      assert Start().list.Synced();
    } else {
      var n := |actions| - 1;
      EveryRunAgrees(actions[..n], rules);
      ActionKeeps(Run(actions[..n], rules), actions[n], rules);
      hide Do, Agree, OllamaAgrees, Dialable;
    }
  }

  /** A base URL with a port the guard refuses is stored all the same, and the host of the one before stays allowed. */
  lemma RefusedTargetKeepsTheOldHost(w: World, url: string, model: Option<string>, rules: Rules)
    requires Agree(w, rules) && OllamaAgrees(w, rules) && !Dialable(url, rules)
    ensures var (next, threw) := WithBaseUrl(w, url, model, rules);
            threw && next.store == w.store[OllamaUrl := url] && Find(next.list.dynamic, OLLAMA)
              == Find(w.list.dynamic, OLLAMA)
  {
    OllamaKeeps(w, url, model, rules);
  }

  // ---------- What the guard lets through ----------

  /** A destination the owner named in this session: a cloud host with its key, the model server, the mail server. */
  predicate NamedByTheOwner(w: World, rules: Rules, host: string, port: Option<int>) {
    || (Anthropic in w.store && Names(rules.hosts, Target("api.anthropic.com", Some(443)), host, port))
    || (Openai in w.store && Names(rules.hosts, Target("api.openai.com", Some(443)), host, port))
    || (OllamaUrl in w.store && !rules.loopback(rules.targetOf(w.store[OllamaUrl]).host)
        && Names(rules.hosts, rules.targetOf(w.store[OllamaUrl]), host, port))
    || (w.smtpServer.Some? && !rules.loopback(w.smtpServer.value.host)
        && Names(rules.hosts, Target(w.smtpServer.value.host, Some(w.smtpServer.value.port)), host, port))
  }

  lemma OneEntry(rules: HostRules, t: Target, source: string, host: string, port: Option<int>)
    ensures AnyMatches(rules, [EntryOf(rules, t, source)], host, port) <==> Names(rules, t, host, port)
  {
    hide Matches, Names;
    EntryMatchesNames(rules, t, source, host, port);
    assert [EntryOf(rules, t, source)][0] == EntryOf(rules, t, source);
  }

  /**
   * Online, after any run whose last base URL is one the guard takes, a destination is let through exactly when it is
   * always allowed, is in the configuration, was named by the owner in this session, or belongs to another feature.
   */
  lemma OnlyWhatTheOwnerNamed(actions: seq<Action>, rules: Rules, host: string, port: Option<int>)
    requires rules.Lawful() && (forall i :: 0 <= i < |actions| ==> Possible(actions[i]))
               && OllamaSettled(actions, rules)
    requires !Run(actions, rules).list.offline
    ensures var w := Run(actions, rules);
            (Allows(rules.hosts, w.list.active, false, host, port)
             <==> || AlwaysAllowed(rules.hosts, host) || AnyMatches(rules.hosts, w.list.fixed, host, port)
                  || NamedByTheOwner(w, rules, host, port)
                  || exists source :: !SessionSource(source)
                       && FeatureMatches(rules.hosts, w.list.dynamic, source, host, port))
  {
    var w := Run(actions, rules);
    EveryRunAgrees(actions, rules);
    OnlineIsStaticOrAFeature(rules.hosts, w.list.fixed, w.list.dynamic, host, port);
    OwnSourcesMatch(w, rules, host, port);
    hide Allows, AnyMatches, Listed, NamedByTheOwner, FeatureMatches, Run;
  }

  /** Offline, after any run at all, the decision is the database entries' alone. */
  lemma OfflineIgnoresTheSession(actions: seq<Action>, rules: Rules, host: string, port: Option<int>)
    requires rules.Lawful() && forall i :: 0 <= i < |actions| ==> Possible(actions[i])
    requires Run(actions, rules).list.offline
    ensures var list := Run(actions, rules).list;
            (Allows(rules.hosts, list.active, list.offline, host, port)
             <==> AlwaysAllowed(rules.hosts, host) || AnyMatches(rules.hosts, FromDatabase(list.fixed), host, port))
  {
    var list := Run(actions, rules).list;
    EveryRunAgrees(actions, rules);
    OfflineIsTheDatabaseAlone(rules.hosts, list.fixed, list.dynamic, host, port);
    hide Allows, AnyMatches, Listed, Run;
  }

  lemma OwnSourcesMatch(w: World, rules: Rules, host: string, port: Option<int>)
    requires Agree(w, rules) && OllamaAgrees(w, rules)
    ensures NamedByTheOwner(w, rules, host, port)
       <==> exists source :: SessionSource(source) && FeatureMatches(rules.hosts, w.list.dynamic, source, host, port)
  {
    hide Find, AnyMatches, Matches, Names, Listed, Distinct, Tagged, DistinctKeys, FromConfiguration, Allowlist.Valid,
      Allowlist.Synced, RegistryOk;
    OneEntry(rules.hosts, Target(CloudHost(Anthropic), Some(443)), CloudSource(Anthropic), host, port);
    OneEntry(rules.hosts, Target(CloudHost(Openai), Some(443)), CloudSource(Openai), host, port);
    if OllamaUrl in w.store {
      OneEntry(rules.hosts, rules.targetOf(w.store[OllamaUrl]), OLLAMA, host, port);
    }
    if w.smtpServer.Some? {
      var server := w.smtpServer.value;
      OneEntry(rules.hosts, Target(server.host, Some(server.port)), SMTP, host, port);
    }
    assert SessionSource(CloudSource(Anthropic)) && SessionSource(CloudSource(Openai)) && SessionSource(OLLAMA)
             && SessionSource(SMTP);
  }

  /** Forgetting the four names takes away everything the owner named, whatever happened before. */
  lemma ForgettingClosesEverything(actions: seq<Action>, rules: Rules)
    requires rules.Lawful() && forall i :: 0 <= i < |actions| ==> Possible(actions[i])
    ensures var w := Forgotten(Forgotten(Forgotten(Forgotten(Run(actions, rules), Anthropic), Openai), OllamaUrl),
              SmtpPassword);
            && w.store == map[] && w.smtpServer.None? && w.registry == Run(actions, rules).registry
            && forall source :: SessionSource(source) ==> Find(w.list.dynamic, source).None?
  {
    hide Find, Allowlist.ClearAllowance, Run, RegistryOk, Allowlist.Valid, Allowlist.Synced;
    var w0 := Run(actions, rules);
    EveryRunAgrees(actions, rules);
    DeleteKeeps(w0, Anthropic, rules);
    var w1 := Forgotten(w0, Anthropic);
    DeleteKeeps(w1, Openai, rules);
    var w2 := Forgotten(w1, Openai);
    DeleteKeeps(w2, OllamaUrl, rules);
    var w3 := Forgotten(w2, OllamaUrl);
    DeleteKeeps(w3, SmtpPassword, rules);
    var w4 := Forgotten(w3, SmtpPassword);
    forall name ensures name !in w4.store {
      match name case Anthropic => case Openai => case OllamaUrl => case SmtpPassword =>
    }
  }

  // ---------- What the scrubber removes ----------

  function ScrubMin(name: Name): nat {
    if name == SmtpPassword then SMTP_PASSWORD_SCRUB_MIN else CLOUD_KEY_SCRUB_MIN
  }

  /** Every stored key and password long enough to be scrubbed is scrubbed. */
  ghost predicate Scrubbed(w: World) {
    forall name :: name in w.store && name != OllamaUrl && ScrubMin(name) <= |w.store[name]| ==>
      w.store[name] in w.registry.scrubber
  }

  /** The store of `value` under `name` evicts a value whose escaped form is then a stored, scrubbed key or password. */
  predicate UncoversWith(w: World, name: Name, value: string, rules: Rules) {
    var store := w.store[name := value];
    exists other :: other in store && other != OllamaUrl && ScrubMin(other) <= |store[other]|
                    && TakesOut(w.registry, w.store.Values, value, ScrubMin(name), rules, store[other])
  }

  /** The step leaves a stored key or password unscrubbed. */
  predicate Uncovers(w: World, a: Action, rules: Rules) {
    match a
    case CloudKey(name, key) => Cloud(name) && UncoversWith(w, name, key, rules)
    case Password(password) => UncoversWith(w, SmtpPassword, password, rules)
    case _ => false
  }

  /** The part of a setter that the scrubber depends on. */
  function Holding(w: World, name: Name, value: string, rules: Rules): World {
    w.(registry := Register(w.registry, w.store.Values, value, ScrubMin(name), rules), store := w.store[name := value])
  }

  lemma HoldingScrubs(w: World, name: Name, value: string, rules: Rules)
    requires RegistryOk(w) && Scrubbed(w) && name != OllamaUrl
    ensures Scrubbed(Holding(w, name, value, rules)) <==> !UncoversWith(w, name, value, rules)
  {
    var next := Holding(w, name, value, rules);
    hide Register, TakesOut;
    forall other | other in next.store && other != OllamaUrl && ScrubMin(other) <= |next.store[other]|
      ensures next.store[other] in next.registry.scrubber
         <==> !TakesOut(w.registry, w.store.Values, value, ScrubMin(name), rules, next.store[other])
    {
      assert other != name ==> w.store[other] in w.store.Values;
      RegisterKeepsScrubbed(w.registry, w.store, value, ScrubMin(name), rules, next.store[other]);
    }
  }

  lemma StepScrubsUnlessItUncovers(w: World, a: Action, rules: Rules)
    requires RegistryOk(w) && Scrubbed(w)
    ensures Scrubbed(Do(w, a, rules)) <==> !Uncovers(w, a, rules)
  {
    hide Register, UncoversWith, Allowlist.SetAllowance, Allowlist.ClearAllowance, RegistryOk;
    match a {
      case CloudKey(name, key) => if Cloud(name) { HoldingScrubs(w, name, key, rules); }
      case Password(password) => HoldingScrubs(w, SmtpPassword, password, rules);
      case _ =>
    }
  }

  /** Every stored key and password that is long enough has been scrubbed after each step. */
  ghost predicate AlwaysScrubbed(actions: seq<Action>, rules: Rules) {
    Scrubbed(Run(actions, rules)) && (actions != [] ==> AlwaysScrubbed(actions[..|actions| - 1], rules))
  }

  /** No step of the run evicts a value whose escaped form is stored. */
  predicate NothingUncovered(actions: seq<Action>, rules: Rules) {
    actions != [] ==>
      var before := actions[..|actions| - 1];
      !Uncovers(Run(before, rules), actions[|actions| - 1], rules) && NothingUncovered(before, rules)
  }

  /**
   * Through every run, evictions included, each stored key and password that is long enough stays scrubbed if and only
   * if no step evicts a value of which another stored one is the escaped form.
   */
  lemma {:induction false} EveryRunScrubs(actions: seq<Action>, rules: Rules)
    requires rules.Lawful() && forall i :: 0 <= i < |actions| ==> Possible(actions[i])
    ensures AlwaysScrubbed(actions, rules) <==> NothingUncovered(actions, rules)
  {
    if actions != [] {
      var n := |actions| - 1;
      EveryRunScrubs(actions[..n], rules);
      EveryRunAgrees(actions[..n], rules);
      hide Do, Scrubbed, Uncovers, RegistryOk;
      if AlwaysScrubbed(actions[..n], rules) {
        StepScrubsUnlessItUncovers(Run(actions[..n], rules), actions[n], rules);
      }
    }
  }

  // ---------- Both spellings ----------

  /** The keys and passwords handed to the store in a run. */
  function Given(actions: seq<Action>): set<string> {
    if actions == [] then {}
    else
      var last := actions[|actions| - 1];
      Given(actions[..|actions| - 1]) +
        if last.CloudKey? then {last.key} else if last.Password? then {last.password} else {}
  }

  ghost predicate ScrubInv(w: World, given: set<string>, rules: Rules) {
    && Scrubbed(w) && Paired(w.registry.scrubber, given, rules)
    && forall v :: v in w.registry.values ==> v in given
  }

  /** Where no value given is the escaped form of another, nothing is ever uncovered. */
  lemma StoreKeepsScrubbed(w: World, name: Name, value: string, rules: Rules, given: set<string>)
    requires RegistryOk(w) && ScrubInv(w, given, rules) && name != OllamaUrl && Unambiguous(given + {value}, rules)
    ensures ScrubInv(Holding(w, name, value, rules), given + {value}, rules)
  {
    RegisterKeeps(w.registry, w.store, value, ScrubMin(name), rules);
    RegisterPairs(w.registry, w.store, value, ScrubMin(name), given, rules);
    HoldingScrubs(w, name, value, rules);
    hide Register, Paired, Scrubbed;
    if UncoversWith(w, name, value, rules) {
      var store := w.store[name := value];
      var other :| other in store && other != OllamaUrl
        && TakesOut(w.registry, w.store.Values, value, ScrubMin(name), rules, store[other]);
      NoneTakenOut(w, name, value, rules, given, other);
      assert false;
    }
  }

  lemma NoneTakenOut(w: World, name: Name, value: string, rules: Rules, given: set<string>, other: Name)
    requires RegistryOk(w) && name != OllamaUrl && Unambiguous(given + {value}, rules)
               && forall v :: v in w.registry.values ==> v in given
    requires other in w.store[name := value] && other != OllamaUrl
    ensures !TakesOut(w.registry, w.store.Values, value, ScrubMin(name), rules, w.store[name := value][other])
  {
    var i := RegisterOne(w.registry, w.store, value, ScrubMin(name), rules);
    var v := w.store[name := value][other];
    hide Register, Scrub, FirstNotStored, Unscrub;
    assert v in given + {value};
    assert other != name ==> v in w.store.Values;
    if value !in w.registry.values && |w.registry.values| == MAX_REGISTRATIONS {
      assert w.registry.values[i] in w.registry.values && w.registry.values[i] != v;
    }
  }

  lemma FewerStoredStaysScrubbed(w: World, next: World, given: set<string>, rules: Rules)
    requires ScrubInv(w, given, rules) && next.registry == w.registry
    requires forall name :: name in next.store && name != OllamaUrl ==>
               name in w.store && next.store[name] == w.store[name]
    ensures ScrubInv(next, given, rules)
  {
    hide Paired;
  }

  /**
   * Through every run, evictions included, in which no value given is the escaped form of another, each stored key and
   * password that is long enough stays scrubbed in both spellings.
   */
  lemma {:induction false} EveryRunPairs(actions: seq<Action>, rules: Rules)
    requires rules.Lawful() && (forall i :: 0 <= i < |actions| ==> Possible(actions[i]))
               && Unambiguous(Given(actions), rules)
    ensures ScrubInv(Run(actions, rules), Given(actions), rules)
  {
    if actions != [] {
      var n := |actions| - 1;
      EveryRunPairs(actions[..n], rules);
      EveryRunAgrees(actions[..n], rules);
      StepScrubs(Run(actions[..n], rules), actions[n], Given(actions[..n]), rules);
      hide Do, ScrubInv;
    }
  }

  lemma StepScrubs(w: World, a: Action, given: set<string>, rules: Rules)
    requires Possible(a) && RegistryOk(w) && ScrubInv(w, given, rules)
    requires Unambiguous(given + if a.CloudKey? then {a.key} else if a.Password? then {a.password} else {}, rules)
    ensures ScrubInv(Do(w, a, rules), given + if a.CloudKey? then {a.key} else if a.Password? then {a.password}
              else {}, rules)
  {
    hide Register, Allowlist.SetAllowance, Allowlist.ClearAllowance, ScrubInv, RegistryOk;
    assert given + {} == given;
    match a {
      case CloudKey(name, key) =>
        StoreKeepsScrubbed(w, name, key, rules, given);
        SameSecrets(Holding(w, name, key, rules), WithCloudKey(w, name, key, rules), given + {key}, rules);
      case Password(password) => StoreKeepsScrubbed(w, SmtpPassword, password, rules, given);
      case BaseUrl(_, _) => FewerStoredStaysScrubbed(w, Do(w, a, rules), given, rules);
      case Smtp(_, _, _) => FewerStoredStaysScrubbed(w, Do(w, a, rules), given, rules);
      case Forget(_) => FewerStoredStaysScrubbed(w, Do(w, a, rules), given, rules);
      case Feature(_, _) => FewerStoredStaysScrubbed(w, Do(w, a, rules), given, rules);
      case Configure(_, _) => FewerStoredStaysScrubbed(w, Do(w, a, rules), given, rules);
    }
  }

  lemma SameSecrets(w: World, next: World, given: set<string>, rules: Rules)
    requires ScrubInv(w, given, rules) && next.store == w.store && next.registry == w.registry
    ensures ScrubInv(next, given, rules)
  {
  }

  // ---------- A stored key that is uncovered ----------

  /** A key `u`, a key `v` for the other provider, and then more keys in place of `u`. */
  function KeyChanges(u: string, v: string, keys: seq<string>): seq<Action> {
    [CloudKey(Anthropic, u), CloudKey(Openai, v)]
      + seq(|keys|, i requires 0 <= i < |keys| => CloudKey(Anthropic, keys[i]))
  }

  /** Keys that are all different, from one another and from `u` and `v`. */
  ghost predicate Fresh(u: string, v: string, keys: seq<string>) {
    Distinct(keys) && u !in keys && v !in keys
  }

  lemma OneChange(u: string, v: string, keys: seq<string>, rules: Rules)
    requires keys != []
    ensures var n := |keys| - 1;
            var w, next := Run(KeyChanges(u, v, keys[..n]), rules), Run(KeyChanges(u, v, keys), rules);
            && next.registry == Register(w.registry, w.store.Values, keys[n], CLOUD_KEY_SCRUB_MIN, rules)
            && next.store == w.store[Anthropic := keys[n]]
  {
    hide Register, Allowlist.SetAllowance;
    var n := |keys| - 1;
    var a := KeyChanges(u, v, keys);
    assert a[..|a| - 1] == KeyChanges(u, v, keys[..n]);
    assert a[|a| - 1] == CloudKey(Anthropic, keys[n]);
  }

  lemma TwoKeys(u: string, v: string, rules: Rules)
    requires u != v && rules.escape(u) == v && CLOUD_KEY_SCRUB_MIN <= |u|
    ensures var w := Run(KeyChanges(u, v, []), rules);
            w.registry.values == [u, v] && u in w.registry.scrubber && v in w.registry.scrubber
              && w.store == map[Anthropic := u, Openai := v]
  {
    hide Allowlist.SetAllowance;
    var a := KeyChanges(u, v, []);
    var one := [CloudKey(Anthropic, u)];
    assert one[..0] == [] && a[..1] == one && |a| == 2;
    var w := Run(one, rules);
    assert Run([], rules) == Start();
    assert w == WithCloudKey(Start(), Anthropic, u, rules);
    assert w.registry.values == [u] && w.registry.scrubber == {u, v};
    assert Run(a, rules) == WithCloudKey(w, Openai, v, rules);
  }

  lemma OneMoreValue(r: Registry, store: map<Name, string>, value: string, rules: Rules)
    requires value !in r.values && |r.values| < MAX_REGISTRATIONS
    ensures var next := Register(r, store.Values, value, CLOUD_KEY_SCRUB_MIN, rules);
            next.values == r.values + [value] && r.scrubber <= next.scrubber
  {
  }

  lemma {:induction false} UpToTheCap(u: string, v: string, keys: seq<string>, rules: Rules)
    requires u != v && rules.escape(u) == v && CLOUD_KEY_SCRUB_MIN <= |u| && Fresh(u, v, keys)
               && |keys| + 2 <= MAX_REGISTRATIONS
    ensures var w := Run(KeyChanges(u, v, keys), rules);
            && w.registry.values == [u, v] + keys && u in w.registry.scrubber && v in w.registry.scrubber
            && w.store == map[Anthropic := if keys == [] then u else keys[|keys| - 1], Openai := v]
  {
    hide Run, Register, KeyChanges, Do, Fresh;
    if keys == [] {
      TwoKeys(u, v, rules);
      assert [u, v] + keys == [u, v];
    } else {
      var n := |keys| - 1;
      FreshButOne(u, v, keys);
      UpToTheCap(u, v, keys[..n], rules);
      OneChange(u, v, keys, rules);
      var w := Run(KeyChanges(u, v, keys[..n]), rules);
      OneMoreValue(w.registry, w.store, keys[n], rules);
    }
  }

  lemma FreshButOne(u: string, v: string, keys: seq<string>)
    requires keys != [] && Fresh(u, v, keys)
    ensures var n := |keys| - 1;
            && Fresh(u, v, keys[..n]) && keys[n] !in [u, v] + keys[..n]
            && [u, v] + keys[..n] + [keys[n]] == [u, v] + keys
  {
  }

  /**
   * The condition is needed: with a key that another stored key is the escaped form of, 63 changes of the first key
   * push it out of the registry, and its eviction leaves the stored one unscrubbed.
   */
  lemma StoredKeyIsUncovered(u: string, v: string, keys: seq<string>, rules: Rules)
    requires u != v && rules.escape(u) == v && CLOUD_KEY_SCRUB_MIN <= |u| && CLOUD_KEY_SCRUB_MIN <= |v|
    requires Fresh(u, v, keys) && |keys| == 63
    ensures var w := Run(KeyChanges(u, v, keys), rules);
            Openai in w.store && w.store[Openai] == v && v !in w.registry.scrubber && !Scrubbed(w)
  {
    var first := keys[..62];
    UpToTheCap(u, v, first, rules);
    OneChange(u, v, keys, rules);
    var w, key := Run(KeyChanges(u, v, first), rules), keys[62];
    hide Run, Allowlist.SetAllowance, Register;
    assert key !in first;
    RegisterOneOfEach(w, u, v, first, key, rules);
  }

  lemma RegisterOneOfEach(w: World, u: string, v: string, first: seq<string>, key: string, rules: Rules)
    requires w.registry.values == [u, v] + first && |first| == 62 && Fresh(u, v, first + [key]) && u != v && u != ""
    requires u in w.registry.scrubber && rules.escape(u) == v && w.store == map[Anthropic := first[61], Openai := v]
    ensures v !in Register(w.registry, w.store.Values, key, CLOUD_KEY_SCRUB_MIN, rules).scrubber
  {
    var values := w.registry.values;
    assert forall j :: 0 <= j < 62 ==> (first + [key])[j] == first[j];
    assert (first + [key])[62] == key;
    assert u !in w.store.Values by {
      forall name | name in w.store ensures w.store[name] != u {}
    }
    assert (values + [key])[0] == u;
    assert FirstNotStored(values + [key], w.store.Values) == Some(0);
    assert key !in values;
    EvictOnce(Registry(values + [key], Scrub(w.registry.scrubber, key, CLOUD_KEY_SCRUB_MIN, rules)), w.store.Values, 0,
      rules);
  }
}
