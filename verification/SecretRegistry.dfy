/** What the secrets store registers with the scrubber: at most 64 values, never dropping one that is stored. */
module SecretRegistry {
  import opened Wrappers
  import opened EgressGuard

  datatype Name = Anthropic | Openai | OllamaUrl | SmtpPassword

  datatype Security = Tls | StartTls | NoTls

  datatype Server = Server(host: string, port: int, security: Security)

  /**
   * The guard's host rules, the store's own loopback check, the target of a base URL, and a value's spelling inside a
   * JSON string. None of the four is part of this model.
   */
  datatype Rules = Rules(hosts: HostRules, loopback: string -> bool, targetOf: string -> Target,
    escape: string -> string) {
    /** The fixed cloud hosts have a spelling. */
    predicate Lawful() {
      hosts.normalize(CloudHost(Anthropic)) != "" && hosts.normalize(CloudHost(Openai)) != ""
    }
  }

  const MAX_REGISTRATIONS := 64
  const CLOUD_KEY_SCRUB_MIN := 8
  const SMTP_PASSWORD_SCRUB_MIN := 4
  const SMTP_PORTS := {25, 465, 587, 2525}
  const OLLAMA := "ai.ollama"
  const SMTP := "smtp"

  predicate Cloud(name: Name) {
    name == Anthropic || name == Openai
  }

  function CloudHost(name: Name): string {
    if name == Anthropic then "api.anthropic.com" else "api.openai.com"
  }

  function CloudSource(name: Name): string {
    if name == Anthropic then "ai.anthropic" else "ai.openai"
  }

  predicate SessionSource(source: string) {
    source == CloudSource(Anthropic) || source == CloudSource(Openai) || source == OLLAMA || source == SMTP
  }

  // ---------- Values registered with the scrubber ----------

  /** The values this store registered, oldest first, and every spelling the scrubber removes. */
  datatype Registry = Registry(values: seq<string>, scrubber: set<string>)

  function Scrub(scrubber: set<string>, value: string, minLength: nat, rules: Rules): set<string> {
    if |value| < (if minLength < 1 then 1 else minLength) || value in scrubber then scrubber
    else scrubber + {value, rules.escape(value)}
  }

  function Unscrub(scrubber: set<string>, value: string, rules: Rules): set<string> {
    if value == "" || value !in scrubber then scrubber else scrubber - {value, rules.escape(value)}
  }

  function FirstNotStored(values: seq<string>, stored: set<string>): (r: Option<nat>)
    ensures r.Some? ==> r.value < |values| && values[r.value] !in stored && forall j :: 0 <= j < r.value ==>
              values[j] in stored
    ensures r.None? ==> forall j :: 0 <= j < |values| ==> values[j] in stored
  {
    if values == [] then None
    else if values[0] !in stored then Some(0)
    else
      match FirstNotStored(values[1..], stored)
      case None => None
      case Some(i) => Some(i + 1)
  }

  function Evict(r: Registry, stored: set<string>, rules: Rules): Registry
    decreases |r.values|
  {
    if |r.values| <= MAX_REGISTRATIONS then r
    else
      match FirstNotStored(r.values, stored)
      case None => r
      case Some(i) =>
        Evict(Registry(r.values[..i] + r.values[i + 1..], Unscrub(r.scrubber, r.values[i], rules)), stored, rules)
  }

  function Register(r: Registry, stored: set<string>, value: string, minLength: nat, rules: Rules): Registry {
    var values := if value in r.values then r.values else r.values + [value];
    Evict(Registry(values, Scrub(r.scrubber, value, minLength, rules)), stored, rules)
  }

  ghost predicate Distinct(values: seq<string>) {
    forall i, j :: 0 <= i < j < |values| ==> values[i] != values[j]
  }

  /** The value that registering `value` evicts. */
  function Evicted(r: Registry, stored: set<string>, value: string): Option<string> {
    if value in r.values || |r.values| < MAX_REGISTRATIONS then None
    else
      match FirstNotStored(r.values + [value], stored)
      case None => None
      case Some(i) => Some((r.values + [value])[i])
  }

  /** Registering `value` evicts a scrubbed value whose escaped form is `v`. */
  predicate TakesOut(r: Registry, stored: set<string>, value: string, minLength: nat, rules: Rules, v: string) {
    match Evicted(r, stored, value)
    case None => false
    case Some(gone) => gone != "" && gone in Scrub(r.scrubber, value, minLength, rules) && rules.escape(gone) == v
  }

  lemma {:induction false} DistinctValuesFit(values: seq<string>, within: set<string>)
    requires Distinct(values) && forall i :: 0 <= i < |values| ==> values[i] in within
    ensures |values| <= |within|
  {
    if values != [] {
      var n := |values| - 1;
      DistinctValuesFit(values[..n], within - {values[n]});
    }
  }

  lemma FourValuesStored(store: map<Name, string>)
    ensures |store.Values| <= 4
  {
    var all := {Held(store, Anthropic), Held(store, Openai), Held(store, OllamaUrl), Held(store, SmtpPassword)};
    forall v | v in store.Values ensures v in all {
      var n :| n in store && store[n] == v;
      match n {
        case Anthropic => assert v == Held(store, Anthropic);
        case Openai => assert v == Held(store, Openai);
        case OllamaUrl => assert v == Held(store, OllamaUrl);
        case SmtpPassword => assert v == Held(store, SmtpPassword);
      }
    }
    Subset(store.Values, all);
  }

  function Held(store: map<Name, string>, name: Name): string {
    if name in store then store[name] else ""
  }

  lemma {:induction false} Subset(a: set<string>, b: set<string>)
    requires a <= b
    ensures |a| <= |b|
  {
    if a != {} {
      var v :| v in a;
      Subset(a - {v}, b - {v});
    }
  }

  /**
   * What registering does: the value last unless it was there, and with 65 values the oldest that is not stored goes.
   */
  lemma RegisterOne(r: Registry, store: map<Name, string>, value: string, minLength: nat, rules: Rules) returns (i: nat)
    requires Distinct(r.values) && |r.values| <= MAX_REGISTRATIONS
    ensures var next := Register(r, store.Values, value, minLength, rules);
            var all := r.values + [value];
            var scrubber := Scrub(r.scrubber, value, minLength, rules);
            && (value in r.values ==> next == Registry(r.values, scrubber))
            && (value !in r.values && |r.values| < MAX_REGISTRATIONS ==> next == Registry(all, scrubber))
            && (value !in r.values && |r.values| == MAX_REGISTRATIONS ==>
                 && i < |r.values| && r.values[i] !in store.Values && Evicted(r, store.Values, value)
                      == Some(r.values[i])
                 && next == Registry(all[..i] + all[i + 1..], Unscrub(scrubber, r.values[i], rules)))
  {
    i := 0;
    if value !in r.values && |r.values| == MAX_REGISTRATIONS {
      i := SomeNotStored(r.values, store, value);
      hide Distinct, Scrub, Unscrub;
      EvictOnce(Registry(r.values + [value], Scrub(r.scrubber, value, minLength, rules)), store.Values, i, rules);
    }
  }

  lemma EvictOnce(r: Registry, stored: set<string>, i: nat, rules: Rules)
    requires |r.values| == MAX_REGISTRATIONS + 1 && FirstNotStored(r.values, stored) == Some(i)
    ensures Evict(r, stored, rules) ==
      Registry(r.values[..i] + r.values[i + 1..], Unscrub(r.scrubber, r.values[i], rules))
  {
    hide Unscrub;
    var next := Registry(r.values[..i] + r.values[i + 1..], Unscrub(r.scrubber, r.values[i], rules));
    assert Evict(next, stored, rules) == next;
  }

  lemma SomeNotStored(values: seq<string>, store: map<Name, string>, value: string) returns (i: nat)
    requires Distinct(values) && |values| > 4
    ensures i < |values| && values[i] !in store.Values && FirstNotStored(values + [value], store.Values) == Some(i)
    ensures (values + [value])[i] == values[i]
  {
    var all := values + [value];
    if forall j :: 0 <= j < |values| ==> all[j] in store.Values {
      FourValuesStored(store);
      forall j | 0 <= j < |values| ensures values[j] in store.Values {
        assert values[j] == all[j];
      }
      DistinctValuesFit(values, store.Values);
      assert false;
    } else {
      i := FirstNotStored(all, store.Values).value;
    }
  }

  /**
   * Registering keeps at most 64 values, all different, and drops none that is stored; the value itself is always kept.
   */
  lemma RegisterKeeps(r: Registry, store: map<Name, string>, value: string, minLength: nat, rules: Rules)
    requires Distinct(r.values) && |r.values| <= MAX_REGISTRATIONS
    ensures var next := Register(r, store.Values, value, minLength, rules);
            && Distinct(next.values) && |next.values| <= MAX_REGISTRATIONS && value in next.values
            && (forall v :: v in store.Values && v in r.values ==> v in next.values)
            && (forall v :: v in next.values ==> v in r.values || v == value)
  {
    var i := RegisterOne(r, store, value, minLength, rules);
    hide Register, Scrub, Unscrub;
    if value !in r.values && |r.values| == MAX_REGISTRATIONS {
      DropOne(r.values, value, i);
    }
  }

  /**
   * A stored value that is scrubbed, and the value itself, stay scrubbed if and only if they are not the escaped form
   * of the value that is evicted.
   */
  lemma RegisterKeepsScrubbed(r: Registry, store: map<Name, string>, value: string, minLength: nat, rules: Rules,
          v: string)
    requires Distinct(r.values) && |r.values| <= MAX_REGISTRATIONS && 1 <= minLength
    requires (v in store.Values && v in r.scrubber) || (v == value && minLength <= |value|)
    ensures v in Register(r, store.Values, value, minLength, rules).scrubber
       <==> !TakesOut(r, store.Values, value, minLength, rules, v)
  {
    var i := RegisterOne(r, store, value, minLength, rules);
    assert v in Scrub(r.scrubber, value, minLength, rules);
    hide Register, FirstNotStored, Distinct;
    if value !in r.values && |r.values| == MAX_REGISTRATIONS {
      hide Evicted, Scrub;
      assert r.values[i] in r.values && r.values[i] != v;
    }
  }

  lemma DropOne(values: seq<string>, value: string, i: nat)
    requires Distinct(values) && value !in values && i < |values|
    ensures var all := values + [value];
            var next := all[..i] + all[i + 1..];
            && |next| == |values| && Distinct(next) && value in next && all[i] == values[i]
            && (forall v :: v in next <==> v != values[i] && (v in values || v == value))
  {
    var all := values + [value];
    var next := all[..i] + all[i + 1..];
    assert next[|next| - 1] == value;
    forall j | 0 <= j < |next| ensures next[j] == if j < i then all[j] else all[j + 1] {}
    forall v | v in values && v != values[i] ensures v in next {
      var j :| 0 <= j < |values| && values[j] == v;
      assert v == if j < i then next[j] else next[j - 1];
    }
  }

  // ---------- Both spellings ----------

  /** No value is the escaped form of another one, and no two have the same escaped form. */
  ghost predicate Unambiguous(values: set<string>, rules: Rules) {
    forall u, v :: u in values && v in values && (rules.escape(u) == v || rules.escape(u) == rules.escape(v)) ==> u == v
  }

  /** Of the values given, a scrubbed one is scrubbed in both spellings, and nothing else is scrubbed. */
  ghost predicate Paired(scrubber: set<string>, given: set<string>, rules: Rules) {
    && (forall v :: v in given && v in scrubber ==> rules.escape(v) in scrubber)
    && (forall x :: x in scrubber ==> x in given || exists u :: u in given && rules.escape(u) == x)
  }

  lemma ScrubPairs(scrubber: set<string>, value: string, minLength: nat, given: set<string>, rules: Rules)
    requires Paired(scrubber, given, rules) && Unambiguous(given + {value}, rules)
    ensures Paired(Scrub(scrubber, value, minLength, rules), given + {value}, rules)
  {
    var next := Scrub(scrubber, value, minLength, rules);
    assert value in given + {value};
    forall x | x in next ensures x in given + {value} || exists u :: u in given + {value} && rules.escape(u) == x {
      if x in scrubber && x !in given {
        var u :| u in given && rules.escape(u) == x;
        assert u in given + {value};
      }
    }
  }

  lemma UnscrubPairs(scrubber: set<string>, evicted: string, given: set<string>, rules: Rules)
    requires Paired(scrubber, given, rules) && Unambiguous(given, rules) && evicted in given
    ensures Paired(Unscrub(scrubber, evicted, rules), given, rules)
  {
  }

  /** Registering, evictions included, keeps both spellings of every scrubbed value. */
  lemma RegisterPairs(r: Registry, store: map<Name, string>, value: string, minLength: nat, given: set<string>,
          rules: Rules)
    requires Distinct(r.values) && |r.values| <= MAX_REGISTRATIONS && forall v :: v in r.values ==> v in given
    requires Paired(r.scrubber, given, rules) && Unambiguous(given + {value}, rules)
    ensures Paired(Register(r, store.Values, value, minLength, rules).scrubber, given + {value}, rules)
  {
    var i := RegisterOne(r, store, value, minLength, rules);
    ScrubPairs(r.scrubber, value, minLength, given, rules);
    if value !in r.values && |r.values| == MAX_REGISTRATIONS {
      assert r.values[i] in r.values;
      UnscrubPairs(Scrub(r.scrubber, value, minLength, rules), r.values[i], given + {value}, rules);
    }
    hide Register, Paired, Unambiguous, Scrub, Unscrub;
  }
}
