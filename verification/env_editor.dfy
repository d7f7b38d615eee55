/** The editor as it works on the file: upsert_env, read_env_value and prepare_env. */
module EnvEditor {
  import opened Options
  import opened EnvText
  import opened EnvFile
  import opened EnvScript
  import opened EnvRerun
  import opened EnvSettings
  import opened PrepareEnv

  lemma ReplacedSnoc(ls: seq<string>, i: nat, key: string, value: string)
    requires i < |ls|
    ensures Replaced(ls[..i + 1], key, value) ==
            Replaced(ls[..i], key, value) + [if Sets(ls[i], key) then Setting(key, value) else ls[i]]
    ensures HasKey(ls[..i + 1], key) <==> HasKey(ls[..i], key) || Sets(ls[i], key)
  {
    assert ls[..i + 1] == ls[..i] + [ls[i]];
    ReplacedConcat(ls[..i], [ls[i]], key, value);
    assert [ls[i]][1..] == [];
    HasKeySnoc(ls, i, key);
  }

  lemma HasKeySnoc(ls: seq<string>, i: nat, key: string)
    requires i < |ls|
    ensures HasKey(ls[..i + 1], key) <==> HasKey(ls[..i], key) || Sets(ls[i], key)
  {
    if HasKey(ls[..i], key) {
      var j :| 0 <= j < i && Sets(ls[..i][j], key);
      assert Sets(ls[..i + 1][j], key);
    }
    if Sets(ls[i], key) { assert Sets(ls[..i + 1][i], key); }
    if HasKey(ls[..i + 1], key) {
      var j :| 0 <= j < i + 1 && Sets(ls[..i + 1][j], key);
      if j < i { assert Sets(ls[..i][j], key); }
    }
  }

  /** trace[i + 1] is what edit i makes of trace[i]. */
  ghost predicate Made(trace: seq<File>, script: seq<Step>, i: nat)
    requires HasKeys(script) && i < |script| < |trace|
  {
    trace[i + 1] == DoStep(trace[i], script[i])
  }

  /** The files between the edits of a script. */
  ghost predicate Traces(trace: seq<File>, script: seq<Step>) {
    HasKeys(script) && |trace| == |script| + 1 &&
    forall i: nat {:trigger Made(trace, script, i)} | i < |script| :: Made(trace, script, i)
  }

  lemma RunSnoc(start: File, script: seq<Step>, i: nat)
    requires HasKeys(script) && i < |script|
    ensures Run(start, script[..i + 1]) == DoStep(Run(start, script[..i]), script[i])
  {
    assert script[..i + 1][..i] == script[..i];
  }

  /** The files between the edits of a script that is run on start. */
  lemma TraceOf(start: File, script: seq<Step>) returns (trace: seq<File>)
    requires HasKeys(script)
    ensures Traces(trace, script) && trace[0] == start && trace[|script|] == Run(start, script)
  {
    trace := seq(|script| + 1, i requires 0 <= i <= |script| => Run(start, script[..i]));
    forall i: nat | i < |script| ensures Made(trace, script, i) {
      RunSnoc(start, script, i);
    }
    assert script[..|script|] == script;
  }

  lemma {:induction false} RunConcat(file: File, a: seq<Step>, b: seq<Step>)
    requires HasKeys(a) && HasKeys(b)
    ensures HasKeys(a + b) && Run(file, a + b) == Run(Run(file, a), b)
  {
    if b == [] {
      assert a + b == a;
    } else {
      var n := |b| - 1;
      RunConcat(file, a, b[..n]);
      assert (a + b)[..|a + b| - 1] == a + b[..n];
    }
  }

  lemma {:induction false} FlattenHasKeys(sections: seq<seq<Step>>)
    requires forall i | 0 <= i < |sections| :: HasKeys(sections[i])
    ensures HasKeys(Flatten(sections))
  {
    if sections != [] {
      FlattenHasKeys(sections[..|sections| - 1]);
    }
  }

  /** trace[j + 1] is what section j makes of trace[j]. */
  ghost predicate Followed(trace: seq<File>, sections: seq<seq<Step>>, j: nat)
    requires j < |sections| < |trace|
  {
    HasKeys(sections[j]) && trace[j + 1] == Run(trace[j], sections[j])
  }

  lemma SectionSnoc(start: File, sections: seq<seq<Step>>, j: nat)
    requires j < |sections| && forall i | 0 <= i < |sections| :: HasKeys(sections[i])
    ensures HasKeys(Flatten(sections[..j])) && HasKeys(Flatten(sections[..j + 1]))
    ensures Run(start, Flatten(sections[..j + 1])) == Run(Run(start, Flatten(sections[..j])), sections[j])
  {
    FlattenHasKeys(sections[..j]);
    assert sections[..j + 1][..j] == sections[..j];
    RunConcat(start, Flatten(sections[..j]), sections[j]);
  }

  /** The files between the sections of a script. */
  lemma Stations(start: File, sections: seq<seq<Step>>) returns (trace: seq<File>)
    requires forall i | 0 <= i < |sections| :: HasKeys(sections[i])
    ensures HasKeys(Flatten(sections)) && |trace| == |sections| + 1
    ensures trace[0] == start && trace[|sections|] == Run(start, Flatten(sections))
    ensures forall j: nat | j < |sections| :: Followed(trace, sections, j)
  {
    forall i | 0 <= i <= |sections| ensures HasKeys(Flatten(sections[..i])) { FlattenHasKeys(sections[..i]); }
    trace := seq(|sections| + 1, i requires 0 <= i <= |sections| => Run(start, Flatten(sections[..i])));
    forall j: nat | j < |sections| ensures Followed(trace, sections, j) {
      SectionSnoc(start, sections, j);
    }
    assert sections[..|sections|] == sections;
  }

  lemma SectionsHaveKeys(args: Args, draws: Draws, headers: string, whitelist: string)
    ensures HasKeys(Runtime(args)) && HasKeys(Database(args)) && HasKeys(Admin(args)) && HasKeys(Auth(draws))
    ensures HasKeys(Services(draws)) && HasKeys(Gateway(args, draws)) && HasKeys(Grafana(args))
    ensures HasKeys(GrafanaProxy(headers, whitelist))
  {
  }

  /** prepare_env as its eight sections, one after the other. */
  lemma Plan(file: File, args: Args, draws: Draws) returns (trace: seq<File>)
    requires GoodDraws(draws)
    ensures var sections := Sections(args, draws, PROXY_HEADERS, PROXY_WHITELIST);
            |trace| == 9 && (forall j: nat | j < 8 :: Followed(trace, sections, j))
    ensures trace[0] == Created(file) && trace[8] == Prepared(file, args, draws)
  {
    SectionsHaveKeys(args, draws, PROXY_HEADERS, PROXY_WHITELIST);
    trace := Stations(Created(file), Sections(args, draws, PROXY_HEADERS, PROXY_WHITELIST));
  }

  lemma PutSnoc(file: File, keys: seq<string>, key: string, v: string)
    ensures PutAll(file, keys + [key], v) == Some(Upsert(PutAll(file, keys, v), key, v))
  {
    assert (keys + [key])[..|keys|] == keys;
  }

  lemma PutOne(file: File, a: string, v: string)
    ensures PutAll(file, [a], v) == Some(Upsert(file, a, v))
  {
    PutSnoc(file, [], a, v);
    assert [] + [a] == [a];
  }

  lemma PutTwo(file: File, a: string, b: string, v: string)
    ensures PutAll(file, [a, b], v) == Some(Upsert(Some(Upsert(file, a, v)), b, v))
  {
    PutOne(file, a, v);
    PutSnoc(file, [a], b, v);
    assert [a] + [b] == [a, b];
  }

  lemma PutFour(file: File, a: string, b: string, c: string, d: string, v: string)
    ensures PutAll(file, [a, b, c, d], v) ==
            Some(Upsert(Some(Upsert(PutAll(file, [a, b], v), c, v)), d, v))
  {
    PutSnoc(file, [a, b], c, v);
    PutSnoc(file, [a, b] + [c], d, v);
    assert [a, b] + [c] + [d] == [a, b, c, d];
  }

  class Editor {
    var file: File

    constructor (f: File)
      ensures file == f
    {
      file := f;
    }

    /** upsert_env */
    method Put(key: string, value: string)
      modifies this
      ensures file == Some(Upsert(old(file), key, value))
    {
      var lines: seq<string> := [];
      if file.Some? { lines := Lines(Universal(file.value)); }
      assert lines == LinesOf(file);
      var out: seq<string> := [];
      var done := false;
      var i := 0;
      while i < |lines|
        invariant 0 <= i <= |lines| && file == old(file)
        invariant out == Replaced(lines[..i], key, value) && done == HasKey(lines[..i], key)
      {
        ReplacedSnoc(lines, i, key, value);
        if Sets(lines[i], key) {
          out := out + [Setting(key, value)];
          done := true;
        } else {
          out := out + [lines[i]];
        }
        i := i + 1;
      }
      assert lines[..i] == lines;
      if !done {
        ReplacedNothing(lines, key, value);
        if out != [] && !EndsWithNewline(out[|out| - 1]) {
          out := out[|out| - 1 := out[|out| - 1] + "\n"];
        }
        assert out == Closed(lines);
        out := out + [Setting(key, value)];
      }
      file := Some(Join(out));
    }

    /** read_env_value */
    method Get(key: string) returns (value: Option<string>)
      ensures value == Read(file, key)
    {
      if file.None? { return None; }
      var lines := Lines(Universal(file.value));
      var i := 0;
      while i < |lines|
        invariant 0 <= i <= |lines|
        invariant ReadLines(lines, key) == ReadLines(lines[i..], key)
      {
        assert lines[i..][1..] == lines[i + 1..];
        var line := Content(lines[i]);
        if Sets(line, key) { return Some(line[|key| + 1..]); }
        i := i + 1;
      }
      value := None;
    }

    method Set(key: string, value: string)
      modifies this
      ensures file == DoStep(old(file), EnvSettings.Put(key, value))
    {
      PutOne(file, key, value);
      Put(key, value);
    }

    /** upsert_env_if_missing */
    method SetIfMissing(key: string, value: string)
      modifies this
      ensures file == DoStep(old(file), PutIfMissing(key, value))
    {
      PutOne(file, key, value);
      var current := Get(key);
      if current.None? { Put(key, value); }
    }

    /** read_env_value(key) or drawn */
    method GetOr(key: string, drawn: string) returns (value: string)
      ensures Chosen(Secret(drawn), Read(file, key)) == Some(value)
    {
      var current := Get(key);
      value := if current.None? || current.value == "" then drawn else current.value;
    }

    method SetPair(a: string, b: string, drawn: string)
      modifies this
      ensures file == DoStep(old(file), Step([a, b], Secret(drawn)))
    {
      var value := GetOr(a, drawn);
      PutTwo(file, a, b, value);
      Put(a, value);
      Put(b, value);
    }

    method SetFour(a: string, b: string, c: string, d: string, drawn: string)
      modifies this
      ensures file == DoStep(old(file), Step([a, b, c, d], Secret(drawn)))
    {
      var value := GetOr(a, drawn);
      PutTwo(file, a, b, value);
      PutFour(file, a, b, c, d, value);
      Put(a, value);
      Put(b, value);
      Put(c, value);
      Put(d, value);
    }

    method SetProvider()
      modifies this
      ensures file == DoStep(old(file), Step(["AUTH_PROVIDER"], Choice))
    {
      var current := Get("AUTH_PROVIDER");
      var provider := NormalizeChoice(OrEmpty(current), PROVIDERS, "local");
      PutOne(file, "AUTH_PROVIDER", provider);
      Put("AUTH_PROVIDER", provider);
    }

    method SetPasswordFlow()
      modifies this
      ensures file == DoStep(old(file), Step(["AUTH_PASSWORD_FLOW_ENABLED"], Flag))
    {
      var current := Get("AUTH_PASSWORD_FLOW_ENABLED");
      var flow := NormalizeBool(OrEmpty(current), "true");
      PutOne(file, "AUTH_PASSWORD_FLOW_ENABLED", flow);
      Put("AUTH_PASSWORD_FLOW_ENABLED", flow);
    }

    method SetRuntime(args: Args)
      modifies this
      ensures HasKeys(Runtime(args)) && file == Run(old(file), Runtime(args))
    {
      ghost var script := Runtime(args);
      ghost var trace := TraceOf(file, script);
      Set("APP_ENV", args.mode);
      assert Made(trace, script, 0);
      Set("ENVIRONMENT", args.mode);
      assert Made(trace, script, 1);
      Set("HOST", "0.0.0.0");
      assert Made(trace, script, 2);
      Set("PORT", "4319");
      assert Made(trace, script, 3);
      Set("LOG_LEVEL", "info");
      assert Made(trace, script, 4);
    }

    method SetDatabase(args: Args)
      modifies this
      ensures HasKeys(Database(args)) && file == Run(old(file), Database(args))
    {
      ghost var script := Database(args);
      ghost var trace := TraceOf(file, script);
      Set("POSTGRES_USER", "watchdog");
      assert Made(trace, script, 0);
      Set("POSTGRES_PASSWORD", args.adminPass);
      assert Made(trace, script, 1);
      Set("POSTGRES_DB", "watchdog");
      assert Made(trace, script, 2);
      Set("DATABASE_URL", DatabaseUrl(args.adminPass, "watchdog"));
      assert Made(trace, script, 3);
      Set("NOTIFIER_DATABASE_URL", DatabaseUrl(args.adminPass, "watchdog_notified"));
      assert Made(trace, script, 4);
      Set("RESOLVER_DATABASE_URL", DatabaseUrl(args.adminPass, "watchdog_resolver"));
      assert Made(trace, script, 5);
      Set("DB_AUTO_CREATE_SCHEMA", "true");
      assert Made(trace, script, 6);
    }

    method SetAdmin(args: Args)
      modifies this
      ensures HasKeys(Admin(args)) && file == Run(old(file), Admin(args))
    {
      ghost var script := Admin(args);
      ghost var trace := TraceOf(file, script);
      Set("DEFAULT_ADMIN_BOOTSTRAP_ENABLED", "true");
      assert Made(trace, script, 0);
      Set("DEFAULT_ADMIN_USERNAME", args.adminUser);
      assert Made(trace, script, 1);
      Set("DEFAULT_ADMIN_PASSWORD", args.adminPass);
      assert Made(trace, script, 2);
      Set("DEFAULT_ADMIN_EMAIL", args.adminEmail);
      assert Made(trace, script, 3);
      SetIfMissing("DEFAULT_ADMIN_TENANT", "default");
      assert Made(trace, script, 4);
      SetIfMissing("DEFAULT_ORG_ID", "default");
      assert Made(trace, script, 5);
      SetIfMissing("MIMIR_TENANT_ID", "default");
      assert Made(trace, script, 6);
    }

    method SetAuth(draws: Draws)
      modifies this
      ensures HasKeys(Auth(draws)) && file == Run(old(file), Auth(draws))
    {
      ghost var script := Auth(draws);
      ghost var trace := TraceOf(file, script);
      SetProvider();
      assert Made(trace, script, 0);
      SetPasswordFlow();
      assert Made(trace, script, 1);
      SetIfMissing("JWT_ALGORITHM", "RS256");
      assert Made(trace, script, 2);
      SetIfMissing("JWT_EXPIRATION_MINUTES", "1440");
      assert Made(trace, script, 3);
      Set("JWT_AUTO_GENERATE_KEYS", "true");
      assert Made(trace, script, 4);
      SetIfMissing("INBOUND_WEBHOOK_TOKEN", draws.webhook);
      assert Made(trace, script, 5);
      SetFour("DEFAULT_OTLP_TOKEN", "OTLP_INGEST_TOKEN", "OTEL_OTLP_TOKEN", "GATEWAY_STATUS_OTLP_TOKEN",
          draws.otlp);
      assert Made(trace, script, 6);
      SetIfMissing("GATEWAY_INTERNAL_SERVICE_TOKEN", draws.gateway);
      assert Made(trace, script, 7);
    }

    method SetServices(draws: Draws)
      modifies this
      ensures HasKeys(Services(draws)) && file == Run(old(file), Services(draws))
    {
      ghost var script := Services(draws);
      ghost var trace := TraceOf(file, script);
      SetPair("NOTIFIER_SERVICE_TOKEN", "NOTIFIER_EXPECTED_SERVICE_TOKEN", draws.notifierToken);
      assert Made(trace, script, 0);
      SetPair("NOTIFIER_CONTEXT_SIGNING_KEY", "NOTIFIER_CONTEXT_VERIFY_KEY", draws.notifierKey);
      assert Made(trace, script, 1);
      Set("NOTIFIER_URL", "http://notifier:4323");
      assert Made(trace, script, 2);
      SetPair("RESOLVER_SERVICE_TOKEN", "RESOLVER_EXPECTED_SERVICE_TOKEN", draws.resolverToken);
      assert Made(trace, script, 3);
      SetPair("RESOLVER_CONTEXT_SIGNING_KEY", "RESOLVER_CONTEXT_VERIFY_KEY", draws.resolverKey);
      assert Made(trace, script, 4);
      Set("RESOLVER_URL", "http://resolver:4322");
      assert Made(trace, script, 5);
    }

    method SetGateway(args: Args, draws: Draws)
      modifies this
      ensures HasKeys(Gateway(args, draws)) && file == Run(old(file), Gateway(args, draws))
    {
      ghost var script := Gateway(args, draws);
      ghost var trace := TraceOf(file, script);
      Set("GATEWAY_PORT", "4321");
      assert Made(trace, script, 0);
      Set("GATEWAY_AUTH_API_URL", AuthApiUrl(args.apiHost));
      assert Made(trace, script, 1);
      SetIfMissing("GATEWAY_IP_ALLOWLIST", "");
      assert Made(trace, script, 2);
      Set("GATEWAY_ALLOWLIST_FAIL_OPEN", "true");
      assert Made(trace, script, 3);
      SetIfMissing("GATEWAY_TRUST_PROXY_HEADERS", "false");
      assert Made(trace, script, 4);
      Set("RATE_LIMIT_BACKEND", "redis");
      assert Made(trace, script, 5);
      Set("RATE_LIMIT_REDIS_URL", "redis://redis:6379/0");
      assert Made(trace, script, 6);
      SetIfMissing("DATA_ENCRYPTION_KEY", draws.dataKey);
      assert Made(trace, script, 7);
      Set("CORS_ORIGINS", "http://localhost:5173");
      assert Made(trace, script, 8);
    }

    method SetGrafana(args: Args)
      modifies this
      ensures HasKeys(Grafana(args)) && file == Run(old(file), Grafana(args))
    {
      ghost var script := Grafana(args);
      ghost var trace := TraceOf(file, script);
      SetIfMissing("GRAFANA_USERNAME", "admin");
      assert Made(trace, script, 0);
      Set("GRAFANA_PASSWORD", args.adminPass);
      assert Made(trace, script, 1);
      Set("GF_SECURITY_ADMIN_PASSWORD", args.adminPass);
      assert Made(trace, script, 2);
      Set("GF_SERVER_ROOT_URL", "http://localhost:8080/grafana/");
      assert Made(trace, script, 3);
      Set("GF_SERVER_SERVE_FROM_SUB_PATH", "true");
      assert Made(trace, script, 4);
      Set("GF_AUTH_PROXY_ENABLED", "true");
      assert Made(trace, script, 5);
      Set("GF_AUTH_PROXY_HEADER_NAME", "X-WEBAUTH-USER");
      assert Made(trace, script, 6);
    }

    method SetGrafanaProxy(headers: string, whitelist: string)
      modifies this
      ensures HasKeys(GrafanaProxy(headers, whitelist)) && file == Run(old(file), GrafanaProxy(headers, whitelist))
    {
      ghost var script := GrafanaProxy(headers, whitelist);
      ghost var trace := TraceOf(file, script);
      Set("GF_AUTH_PROXY_AUTO_SIGN_UP", "true");
      assert Made(trace, script, 0);
      Set("GF_AUTH_PROXY_HEADERS", headers);
      assert Made(trace, script, 1);
      Set("GF_AUTH_PROXY_WHITELIST", whitelist);
      assert Made(trace, script, 2);
      Set("GF_AUTH_ANONYMOUS_ENABLED", "false");
      assert Made(trace, script, 3);
      Set("GF_AUTH_BASIC_ENABLED", "true");
      assert Made(trace, script, 4);
      Set("GF_SECURITY_ALLOW_EMBEDDING", "true");
      assert Made(trace, script, 5);
      Set("GF_USERS_ALLOW_SIGN_UP", "false");
      assert Made(trace, script, 6);
    }

    /** prepare_env */
    method Prepare(args: Args, draws: Draws)
      requires GoodDraws(draws)
      modifies this
      ensures file == Prepared(old(file), args, draws)
    {
      ghost var trace := Plan(file, args, draws);
      ghost var sections := Sections(args, draws, PROXY_HEADERS, PROXY_WHITELIST);
      if file.None? { file := Some(""); }
      assert Followed(trace, sections, 0);
      SetRuntime(args);
      assert Followed(trace, sections, 1);
      SetDatabase(args);
      assert Followed(trace, sections, 2);
      SetAdmin(args);
      assert Followed(trace, sections, 3);
      SetAuth(draws);
      assert Followed(trace, sections, 4);
      SetServices(draws);
      assert Followed(trace, sections, 5);
      SetGateway(args, draws);
      assert Followed(trace, sections, 6);
      SetGrafana(args);
      assert Followed(trace, sections, 7);
      SetGrafanaProxy(PROXY_HEADERS, PROXY_WHITELIST);
    }
  }
}
