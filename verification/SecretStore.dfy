/** The per-session secrets store: its fields, its setters and what each does to the store and the guard. */
module SecretStore {
  import opened Wrappers
  import opened EgressGuard
  import opened SecretRegistry
  import opened SessionSecrets

  class Store {
    const rules: Rules
    const guard: Guard
    var store: map<Name, string>
    var registeredValues: seq<string>
    /** What the scrubber removes; it is another module's. */
    var scrubber: set<string>
    var ollamaModel: Option<string>
    var smtpServer: Option<Server>

    ghost predicate Valid() {
      guard.rules == rules.hosts
    }

    function State(): World
      reads this, guard
    {
      World(store, Registry(registeredValues, scrubber), ollamaModel, smtpServer, guard.State())
    }

    constructor (rules: Rules, guard: Guard)
      requires guard.rules == rules.hosts
      ensures Valid() && this.guard == guard && this.rules == rules
      ensures State() == World(map[], Registry([], {}), None, None, guard.State())
    {
      this.rules, this.guard := rules, guard;
      store, registeredValues, scrubber, ollamaModel, smtpServer := map[], [], {}, None, None;
    }

    method RegisterSessionValue(value: string, minLength: nat)
      modifies this`registeredValues, this`scrubber
      ensures Registry(registeredValues, scrubber)
                == Register(old(Registry(registeredValues, scrubber)), store.Values, value, minLength, rules)
    {
      scrubber := Scrub(scrubber, value, minLength, rules);
      if value !in registeredValues {
        registeredValues := registeredValues + [value];
      }
      while |registeredValues| > MAX_REGISTRATIONS
        invariant Evict(Registry(registeredValues, scrubber), store.Values, rules)
               == Register(old(Registry(registeredValues, scrubber)), store.Values, value, minLength, rules)
        decreases |registeredValues|
      {
        var oldest := FirstNotStored(registeredValues, store.Values);
        if oldest.None? {
          break;
        }
        var evicted := registeredValues[oldest.value];
        registeredValues := registeredValues[..oldest.value] + registeredValues[oldest.value + 1..];
        scrubber := Unscrub(scrubber, evicted, rules);
      }
    }

    method SetCloudKey(name: Name, key: string)
      requires Valid() && Cloud(name)
      modifies this, guard
      ensures State() == WithCloudKey(old(State()), name, key, rules)
    {
      hide Register, Allowlist.SetAllowance;
      RegisterSessionValue(key, CLOUD_KEY_SCRUB_MIN);
      store := store[name := key];
      var _ := guard.SetAllowance(CloudSource(name), [Target(CloudHost(name), Some(443))]);
    }

    /** `validated` is the outcome of the validation this waited for. */
    method SetOllamaBaseUrl(validated: Result<string, string>, model: Option<string>) returns (threw: bool)
      requires Valid()
      modifies this, guard
      ensures validated.Err? ==> threw && State() == old(State())
      ensures validated.Ok? ==> (State(), threw) == WithBaseUrl(old(State()), validated.value, model, rules)
    {
      hide Allowlist.SetAllowance, Allowlist.ClearAllowance;
      if validated.Err? {
        return true;
      }
      var url := validated.value;
      store := store[OllamaUrl := url];
      ollamaModel := model;
      var target := rules.targetOf(url);
      if rules.loopback(target.host) {
        guard.ClearAllowance(OLLAMA);
        threw := false;
      } else {
        threw := guard.SetAllowance(OLLAMA, [target]);
      }
    }

    method SetSmtpPassword(password: string)
      requires Valid()
      modifies this
      ensures State() == WithPassword(old(State()), password, rules)
    {
      hide Register;
      RegisterSessionValue(password, SMTP_PASSWORD_SCRUB_MIN);
      store := store[SmtpPassword := password];
    }

    /** `local` and `safe` are the outcomes of the two address checks this waits for. */
    method AllowSmtpEgress(host: string, port: int, asked: Option<Security>, local: bool, safe: bool)
            returns (threw: bool)
      requires Valid()
      modifies this, guard
      ensures var security := if asked.Some? then asked.value else if port == 465 then Tls else StartTls;
              (State(), threw) == WithMailServer(old(State()), Server(host, port, security), local, safe, rules)
    {
      hide Allowlist.SetAllowance, Allowlist.ClearAllowance;
      var security := if asked.Some? then asked.value else if port == 465 then Tls else StartTls;
      if security == NoTls && !local {
        return true;
      }
      if !rules.loopback(host) {
        if port !in SMTP_PORTS || !safe {
          return true;
        }
        threw := guard.SetAllowance(SMTP, [Target(host, Some(port))]);
        ThrowingChangesNothing(old(guard.State()), rules.hosts, SMTP, [Target(host, Some(port))]);
        if threw {
          return;
        }
      } else {
        guard.ClearAllowance(SMTP);
        threw := false;
      }
      smtpServer := Some(Server(host, port, security));
    }

    method DeleteSessionSecret(name: Name) returns (existed: bool)
      requires Valid()
      modifies this, guard
      ensures State() == Forgotten(old(State()), name) && (existed <==> name in old(store))
    {
      hide Allowlist.ClearAllowance;
      existed := name in store;
      store := store - {name};
      match name {
        case Anthropic => guard.ClearAllowance(CloudSource(Anthropic));
        case Openai => guard.ClearAllowance(CloudSource(Openai));
        case OllamaUrl =>
          ollamaModel := None;
          guard.ClearAllowance(OLLAMA);
        case SmtpPassword =>
          smtpServer := None;
          guard.ClearAllowance(SMTP);
      }
    }

    method ClearAllSessionSecrets()
      requires Valid()
      modifies this, guard
      ensures State() == Forgotten(Forgotten(Forgotten(Forgotten(old(State()), Anthropic), Openai), OllamaUrl),
                SmtpPassword)
    {
      hide Forgotten;
      var _ := DeleteSessionSecret(Anthropic);
      var _ := DeleteSessionSecret(Openai);
      var _ := DeleteSessionSecret(OllamaUrl);
      var _ := DeleteSessionSecret(SmtpPassword);
    }
  }

  lemma ThrowingChangesNothing(a: Allowlist, rules: HostRules, source: string, targets: seq<Target>)
    ensures var (next, threw) := a.SetAllowance(rules, source, targets);
            threw ==> next == a
  {
  }
}
