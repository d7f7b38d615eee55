/** What is read from a prepared .env file: every key of prepare_env with its value. */
module PreparedValues {
  import opened Options
  import opened Text
  import opened EnvText
  import opened EnvFile
  import opened EnvScript
  import opened EnvRerun
  import opened EnvSettings
  import opened EnvReads
  import opened PrepareEnv

  /** The value is `v`, without the carriage return it may end in. */
  predicate Holds(after: File, key: string, v: string) { Read(after, key) == Some(Effective(v)) }

  /** The value is the one the key had before, or `v` if it had none. */
  predicate KeptOr(before: File, after: File, key: string, v: string) {
    Read(after, key) == if Read(before, key).Some? then Read(before, key) else Some(v)
  }

  /** The value is the one `source` had before, or `drawn` if that was missing or empty. */
  predicate SecretOr(before: File, after: File, source: string, key: string, drawn: string) {
    Read(after, key) ==
    if Read(before, source).Some? && Read(before, source).value != "" then Read(before, source) else Some(drawn)
  }

  predicate RuntimeValues(after: File, args: Args) {
    Holds(after, "APP_ENV", args.mode) && Holds(after, "ENVIRONMENT", args.mode) &&
    Holds(after, "HOST", "0.0.0.0") && Holds(after, "PORT", "4319") && Holds(after, "LOG_LEVEL", "info")
  }

  predicate DatabaseValues(after: File, args: Args) {
    Holds(after, "POSTGRES_USER", "watchdog") && Holds(after, "POSTGRES_PASSWORD", args.adminPass) &&
    Holds(after, "POSTGRES_DB", "watchdog") &&
    Holds(after, "DATABASE_URL",
        "postgresql://watchdog:" + args.adminPass + "@postgres:5432/" + "watchdog") &&
    Holds(after, "NOTIFIER_DATABASE_URL",
        "postgresql://watchdog:" + args.adminPass + "@postgres:5432/" + "watchdog_notified") &&
    Holds(after, "RESOLVER_DATABASE_URL",
        "postgresql://watchdog:" + args.adminPass + "@postgres:5432/" + "watchdog_resolver") &&
    Holds(after, "DB_AUTO_CREATE_SCHEMA", "true")
  }

  predicate AdminValues(before: File, after: File, args: Args) {
    Holds(after, "DEFAULT_ADMIN_BOOTSTRAP_ENABLED", "true") &&
    Holds(after, "DEFAULT_ADMIN_USERNAME", args.adminUser) &&
    Holds(after, "DEFAULT_ADMIN_PASSWORD", args.adminPass) &&
    Holds(after, "DEFAULT_ADMIN_EMAIL", args.adminEmail) &&
    KeptOr(before, after, "DEFAULT_ADMIN_TENANT", "default") &&
    KeptOr(before, after, "DEFAULT_ORG_ID", "default") && KeptOr(before, after, "MIMIR_TENANT_ID", "default")
  }

  predicate AuthValues(before: File, after: File, draws: Draws) {
    Read(after, "AUTH_PROVIDER") == Some(Provider(Read(before, "AUTH_PROVIDER"))) &&
    Read(after, "AUTH_PASSWORD_FLOW_ENABLED") == Some(Flow(Read(before, "AUTH_PASSWORD_FLOW_ENABLED"))) &&
    KeptOr(before, after, "JWT_ALGORITHM", "RS256") && KeptOr(before, after, "JWT_EXPIRATION_MINUTES", "1440") &&
    Holds(after, "JWT_AUTO_GENERATE_KEYS", "true") &&
    KeptOr(before, after, "INBOUND_WEBHOOK_TOKEN", draws.webhook) &&
    KeptOr(before, after, "GATEWAY_INTERNAL_SERVICE_TOKEN", draws.gateway)
  }

  predicate OtlpValues(before: File, after: File, draws: Draws) {
    SecretOr(before, after, "DEFAULT_OTLP_TOKEN", "DEFAULT_OTLP_TOKEN", draws.otlp) &&
    SecretOr(before, after, "DEFAULT_OTLP_TOKEN", "OTLP_INGEST_TOKEN", draws.otlp) &&
    SecretOr(before, after, "DEFAULT_OTLP_TOKEN", "OTEL_OTLP_TOKEN", draws.otlp) &&
    SecretOr(before, after, "DEFAULT_OTLP_TOKEN", "GATEWAY_STATUS_OTLP_TOKEN", draws.otlp)
  }

  predicate PairValues(before: File, after: File, a: string, b: string, drawn: string) {
    SecretOr(before, after, a, a, drawn) && SecretOr(before, after, a, b, drawn)
  }

  predicate ServicesValues(before: File, after: File, draws: Draws) {
    PairValues(before, after, "NOTIFIER_SERVICE_TOKEN", "NOTIFIER_EXPECTED_SERVICE_TOKEN", draws.notifierToken) &&
    PairValues(before, after, "NOTIFIER_CONTEXT_SIGNING_KEY", "NOTIFIER_CONTEXT_VERIFY_KEY", draws.notifierKey) &&
    Holds(after, "NOTIFIER_URL", "http://notifier:4323") &&
    PairValues(before, after, "RESOLVER_SERVICE_TOKEN", "RESOLVER_EXPECTED_SERVICE_TOKEN", draws.resolverToken) &&
    PairValues(before, after, "RESOLVER_CONTEXT_SIGNING_KEY", "RESOLVER_CONTEXT_VERIFY_KEY", draws.resolverKey) &&
    Holds(after, "RESOLVER_URL", "http://resolver:4322")
  }

  predicate GatewayValues(before: File, after: File, args: Args, draws: Draws) {
    Holds(after, "GATEWAY_PORT", "4321") &&
    Holds(after, "GATEWAY_AUTH_API_URL", "http://" + args.apiHost + ":4319/api/internal/otlp/validate") &&
    KeptOr(before, after, "GATEWAY_IP_ALLOWLIST", "") && Holds(after, "GATEWAY_ALLOWLIST_FAIL_OPEN", "true") &&
    KeptOr(before, after, "GATEWAY_TRUST_PROXY_HEADERS", "false") && Holds(after, "RATE_LIMIT_BACKEND", "redis") &&
    Holds(after, "RATE_LIMIT_REDIS_URL", "redis://redis:6379/0") &&
    KeptOr(before, after, "DATA_ENCRYPTION_KEY", draws.dataKey) &&
    Holds(after, "CORS_ORIGINS", "http://localhost:5173")
  }

  predicate GrafanaValues(before: File, after: File, args: Args) {
    KeptOr(before, after, "GRAFANA_USERNAME", "admin") && Holds(after, "GRAFANA_PASSWORD", args.adminPass) &&
    Holds(after, "GF_SECURITY_ADMIN_PASSWORD", args.adminPass) &&
    Holds(after, "GF_SERVER_ROOT_URL", "http://localhost:8080/grafana/") &&
    Holds(after, "GF_SERVER_SERVE_FROM_SUB_PATH", "true") && Holds(after, "GF_AUTH_PROXY_ENABLED", "true") &&
    Holds(after, "GF_AUTH_PROXY_HEADER_NAME", "X-WEBAUTH-USER")
  }

  predicate GrafanaProxyValues(after: File, headers: string, whitelist: string) {
    Holds(after, "GF_AUTH_PROXY_AUTO_SIGN_UP", "true") && Holds(after, "GF_AUTH_PROXY_HEADERS", headers) &&
    Holds(after, "GF_AUTH_PROXY_WHITELIST", whitelist) && Holds(after, "GF_AUTH_ANONYMOUS_ENABLED", "false") &&
    Holds(after, "GF_AUTH_BASIC_ENABLED", "true") && Holds(after, "GF_SECURITY_ALLOW_EMBEDDING", "true") &&
    Holds(after, "GF_USERS_ALLOW_SIGN_UP", "false")
  }

  // ------------------------------------------------------------------ the two normalised settings

  function Word(current: Option<string>): string { Lower(Strip(if current.Some? then current.value else "")) }

  /** local, oidc or keycloak, and local for anything else. */
  function Provider(current: Option<string>): string {
    var word := Word(current);
    if word == "local" || word == "oidc" || word == "keycloak" then word else "local"
  }

  /** false for the words that mean it, and true for anything else. */
  function Flow(current: Option<string>): string {
    var word := Word(current);
    if word == "false" || word == "0" || word == "no" || word == "n" || word == "off" then "false" else "true"
  }

  lemma ProvidersAreThemselves()
    ensures Lower("local") == "local" && Lower("oidc") == "oidc" && Lower("keycloak") == "keycloak"
  {
    LowerOfLower("local");
    LowerOfLower("oidc");
    LowerOfLower("keycloak");
  }

  lemma ProviderIsChosen(current: Option<string>)
    ensures Chosen(Choice, current) == Some(Provider(current))
  {
    ProvidersAreThemselves();
    var word := Word(current);
    assert PROVIDERS[0] == "local" && PROVIDERS[1] == "oidc" && PROVIDERS[2] == "keycloak";
    assert (exists a <- PROVIDERS :: Lower(a) == word) <==> word == "local" || word == "oidc" || word == "keycloak" by {
      if word == "local" { assert Lower(PROVIDERS[0]) == word; }
      if word == "oidc" { assert Lower(PROVIDERS[1]) == word; }
      if word == "keycloak" { assert Lower(PROVIDERS[2]) == word; }
    }
  }

  /** Five words mean true and five false, in any case and within any white space; whatever
      else is set, the default stands. */
  lemma BoolMeans(v: string, default: string)
    ensures var word := Lower(Strip(v));
            NormalizeBool(v, default) ==
            if word == "true" || word == "1" || word == "yes" || word == "y" || word == "on" then "true"
            else if word == "false" || word == "0" || word == "no" || word == "n" || word == "off" then "false"
            else default
  {
  }

  lemma FlowIsChosen(current: Option<string>)
    ensures Chosen(Flag, current) == Some(Flow(current))
  {
    BoolMeans(OrEmpty(current), "true");
    FalseIsNoTrueWord();
  }

  // ------------------------------------------------------------------ one setting

  lemma {:induction false} Position(sections: seq<seq<Step>>, j: nat, k: nat) returns (i: nat)
    requires j < |sections| && k < |sections[j]|
    ensures i < |Flatten(sections)| && Flatten(sections)[i] == sections[j][k]
  {
    var n := |sections| - 1;
    if j == n { i := |Flatten(sections[..n])| + k; } else { i := Position(sections[..n], j, k); }
  }

  lemma CreatedReads(file: File, key: string)
    ensures Read(Created(file), key) == Read(file, key)
  {
  }

  lemma SettingReads(file: File, args: Args, draws: Draws, sections: seq<seq<Step>>, j: nat, k: nat, a: nat)
    requires GoodDraws(draws) && Unbroken(args)
    requires sections == Sections(args, draws, PROXY_HEADERS, PROXY_WHITELIST)
    requires j < |sections| && k < |sections[j]| && a < |sections[j][k].keys|
    ensures var step := sections[j][k];
            Read(Prepared(file, args, draws), step.keys[a]) == Final(step.rule, Read(file, step.keys[0]))
  {
    ScriptIsWellFormed(args, draws);
    ScriptOneLineIff(args, draws);
    var i := Position(sections, j, k);
    CreatedReads(file, sections[j][k].keys[0]);
    EveryKeyReads(Created(file), Script(args, draws), i, a);
  }

  /** What one section of the script leaves to be read. */
  predicate SectionRead(before: File, after: File, section: seq<Step>) {
    forall k, a | 0 <= k < |section| && 0 <= a < |section[k].keys| :: KeyRead(before, after, section[k], a)
  }

  predicate KeyRead(before: File, after: File, step: Step, a: nat)
    requires a < |step.keys|
  {
    Read(after, step.keys[a]) == Final(step.rule, Read(before, step.keys[0]))
  }

  lemma SectionReads(file: File, args: Args, draws: Draws, sections: seq<seq<Step>>, j: nat)
    requires GoodDraws(draws) && Unbroken(args) && j < |sections|
    requires sections == Sections(args, draws, PROXY_HEADERS, PROXY_WHITELIST)
    ensures SectionRead(file, Prepared(file, args, draws), sections[j])
  {
    forall k, a | 0 <= k < |sections[j]| && 0 <= a < |sections[j][k].keys|
      ensures KeyRead(file, Prepared(file, args, draws), sections[j][k], a)
    {
      SettingReads(file, args, draws, sections, j, k, a);
    }
  }

  lemma PutHolds(before: File, after: File, section: seq<Step>, k: nat, key: string, v: string)
    requires SectionRead(before, after, section) && k < |section| && section[k] == Put(key, v)
    ensures Holds(after, key, v)
  {
    assert KeyRead(before, after, section[k], 0);
  }

  lemma DefaultHolds(before: File, after: File, section: seq<Step>, k: nat, key: string, v: string)
    requires SectionRead(before, after, section) && k < |section| && section[k] == PutIfMissing(key, v)
    requires v == "" || v[|v| - 1] != '\r'
    ensures KeptOr(before, after, key, v)
  {
    assert KeyRead(before, after, section[k], 0);
  }

  lemma SecretHolds(before: File, after: File, section: seq<Step>, k: nat, a: nat, keys: seq<string>, drawn: string)
    requires SectionRead(before, after, section) && k < |section| && section[k] == Step(keys, Secret(drawn))
    requires a < |keys| && GoodDraw(drawn)
    ensures SecretOr(before, after, keys[0], keys[a], drawn)
  {
    assert KeyRead(before, after, section[k], a);
    LinesOfFile(before);
    ReadsLines(before, keys[0]);
    if Read(before, keys[0]).Some? { ReadLinesIsPlain(LinesOf(before), keys[0]); }
  }

  lemma PairHolds(before: File, after: File, section: seq<Step>, k: nat, a: string, b: string, drawn: string)
    requires SectionRead(before, after, section) && k < |section| && section[k] == Step([a, b], Secret(drawn))
    requires GoodDraw(drawn)
    ensures PairValues(before, after, a, b, drawn)
  {
    SecretHolds(before, after, section, k, 0, [a, b], drawn);
    SecretHolds(before, after, section, k, 1, [a, b], drawn);
  }

  // ------------------------------------------------------------------ section by section

  lemma RuntimeReads(before: File, after: File, args: Args)
    requires SectionRead(before, after, Runtime(args))
    ensures RuntimeValues(after, args)
  {
    var section := Runtime(args);
    PutHolds(before, after, section, 0, "APP_ENV", args.mode);
    PutHolds(before, after, section, 1, "ENVIRONMENT", args.mode);
    PutHolds(before, after, section, 2, "HOST", "0.0.0.0");
    PutHolds(before, after, section, 3, "PORT", "4319");
    PutHolds(before, after, section, 4, "LOG_LEVEL", "info");
  }

  lemma DatabaseReads(before: File, after: File, args: Args)
    requires SectionRead(before, after, Database(args))
    ensures DatabaseValues(after, args)
  {
    var section, start := Database(args), "postgresql://watchdog:" + args.adminPass + "@postgres:5432/";
    PutHolds(before, after, section, 0, "POSTGRES_USER", "watchdog");
    PutHolds(before, after, section, 1, "POSTGRES_PASSWORD", args.adminPass);
    PutHolds(before, after, section, 2, "POSTGRES_DB", "watchdog");
    PutHolds(before, after, section, 3, "DATABASE_URL", start + "watchdog");
    PutHolds(before, after, section, 4, "NOTIFIER_DATABASE_URL", start + "watchdog_notified");
    PutHolds(before, after, section, 5, "RESOLVER_DATABASE_URL", start + "watchdog_resolver");
    PutHolds(before, after, section, 6, "DB_AUTO_CREATE_SCHEMA", "true");
  }

  lemma AdminReads(before: File, after: File, args: Args)
    requires SectionRead(before, after, Admin(args))
    ensures AdminValues(before, after, args)
  {
    var section := Admin(args);
    PutHolds(before, after, section, 0, "DEFAULT_ADMIN_BOOTSTRAP_ENABLED", "true");
    PutHolds(before, after, section, 1, "DEFAULT_ADMIN_USERNAME", args.adminUser);
    PutHolds(before, after, section, 2, "DEFAULT_ADMIN_PASSWORD", args.adminPass);
    PutHolds(before, after, section, 3, "DEFAULT_ADMIN_EMAIL", args.adminEmail);
    DefaultHolds(before, after, section, 4, "DEFAULT_ADMIN_TENANT", "default");
    DefaultHolds(before, after, section, 5, "DEFAULT_ORG_ID", "default");
    DefaultHolds(before, after, section, 6, "MIMIR_TENANT_ID", "default");
  }

  lemma AuthReads(before: File, after: File, draws: Draws)
    requires SectionRead(before, after, Auth(draws)) && GoodDraws(draws)
    ensures AuthValues(before, after, draws)
  {
    ProviderReads(before, after, draws);
    FlowReads(before, after, draws);
    JwtReads(before, after, draws);
    TokensRead(before, after, draws);
  }

  lemma JwtReads(before: File, after: File, draws: Draws)
    requires SectionRead(before, after, Auth(draws))
    ensures KeptOr(before, after, "JWT_ALGORITHM", "RS256") && KeptOr(before, after, "JWT_EXPIRATION_MINUTES", "1440")
    ensures Holds(after, "JWT_AUTO_GENERATE_KEYS", "true")
  {
    var section := Auth(draws);
    DefaultHolds(before, after, section, 2, "JWT_ALGORITHM", "RS256");
    DefaultHolds(before, after, section, 3, "JWT_EXPIRATION_MINUTES", "1440");
    PutHolds(before, after, section, 4, "JWT_AUTO_GENERATE_KEYS", "true");
  }

  lemma TokensRead(before: File, after: File, draws: Draws)
    requires SectionRead(before, after, Auth(draws)) && GoodDraws(draws)
    ensures KeptOr(before, after, "INBOUND_WEBHOOK_TOKEN", draws.webhook)
    ensures KeptOr(before, after, "GATEWAY_INTERNAL_SERVICE_TOKEN", draws.gateway)
  {
    var section := Auth(draws);
    DefaultHolds(before, after, section, 5, "INBOUND_WEBHOOK_TOKEN", draws.webhook);
    DefaultHolds(before, after, section, 7, "GATEWAY_INTERNAL_SERVICE_TOKEN", draws.gateway);
  }

  lemma KeyOfOne(before: File, after: File, section: seq<Step>, k: nat, key: string, rule: Rule)
    requires SectionRead(before, after, section) && k < |section| && section[k] == Step([key], rule)
    ensures Read(after, key) == Final(rule, Read(before, key))
  {
    assert KeyRead(before, after, section[k], 0);
  }

  lemma ProviderReads(before: File, after: File, draws: Draws)
    requires SectionRead(before, after, Auth(draws))
    ensures Read(after, "AUTH_PROVIDER") == Some(Provider(Read(before, "AUTH_PROVIDER")))
  {
    KeyOfOne(before, after, Auth(draws), 0, "AUTH_PROVIDER", Choice);
    ProviderIsChosen(Read(before, "AUTH_PROVIDER"));
    ProviderHasNoReturn(Read(before, "AUTH_PROVIDER"));
  }

  lemma ProviderHasNoReturn(current: Option<string>)
    ensures Effective(Provider(current)) == Provider(current)
  {
  }

  lemma FlowReads(before: File, after: File, draws: Draws)
    requires SectionRead(before, after, Auth(draws))
    ensures Read(after, "AUTH_PASSWORD_FLOW_ENABLED") == Some(Flow(Read(before, "AUTH_PASSWORD_FLOW_ENABLED")))
  {
    KeyOfOne(before, after, Auth(draws), 1, "AUTH_PASSWORD_FLOW_ENABLED", Flag);
    FlowIsChosen(Read(before, "AUTH_PASSWORD_FLOW_ENABLED"));
    FlowHasNoReturn(Read(before, "AUTH_PASSWORD_FLOW_ENABLED"));
  }

  lemma FlowHasNoReturn(current: Option<string>)
    ensures Effective(Flow(current)) == Flow(current)
  {
  }

  lemma OtlpReads(before: File, after: File, draws: Draws)
    requires SectionRead(before, after, Auth(draws)) && GoodDraws(draws)
    ensures OtlpValues(before, after, draws)
  {
    var section := Auth(draws);
    var keys := ["DEFAULT_OTLP_TOKEN", "OTLP_INGEST_TOKEN", "OTEL_OTLP_TOKEN", "GATEWAY_STATUS_OTLP_TOKEN"];
    SecretHolds(before, after, section, 6, 0, keys, draws.otlp);
    SecretHolds(before, after, section, 6, 1, keys, draws.otlp);
    SecretHolds(before, after, section, 6, 2, keys, draws.otlp);
    SecretHolds(before, after, section, 6, 3, keys, draws.otlp);
  }

  lemma ServicesRead(before: File, after: File, draws: Draws)
    requires SectionRead(before, after, Services(draws)) && GoodDraws(draws)
    ensures ServicesValues(before, after, draws)
  {
    var section := Services(draws);
    PairHolds(before, after, section, 0, "NOTIFIER_SERVICE_TOKEN", "NOTIFIER_EXPECTED_SERVICE_TOKEN",
        draws.notifierToken);
    PairHolds(before, after, section, 1, "NOTIFIER_CONTEXT_SIGNING_KEY", "NOTIFIER_CONTEXT_VERIFY_KEY",
        draws.notifierKey);
    PutHolds(before, after, section, 2, "NOTIFIER_URL", "http://notifier:4323");
    PairHolds(before, after, section, 3, "RESOLVER_SERVICE_TOKEN", "RESOLVER_EXPECTED_SERVICE_TOKEN",
        draws.resolverToken);
    PairHolds(before, after, section, 4, "RESOLVER_CONTEXT_SIGNING_KEY", "RESOLVER_CONTEXT_VERIFY_KEY",
        draws.resolverKey);
    PutHolds(before, after, section, 5, "RESOLVER_URL", "http://resolver:4322");
  }

  lemma GatewayReads(before: File, after: File, args: Args, draws: Draws)
    requires SectionRead(before, after, Gateway(args, draws)) && GoodDraws(draws)
    ensures GatewayValues(before, after, args, draws)
  {
    GatewayConstantsRead(before, after, args, draws);
    GatewayDefaultsRead(before, after, args, draws);
  }

  lemma GatewayConstantsRead(before: File, after: File, args: Args, draws: Draws)
    requires SectionRead(before, after, Gateway(args, draws))
    ensures Holds(after, "GATEWAY_PORT", "4321") && Holds(after, "GATEWAY_ALLOWLIST_FAIL_OPEN", "true")
    ensures Holds(after, "GATEWAY_AUTH_API_URL", "http://" + args.apiHost + ":4319/api/internal/otlp/validate")
    ensures Holds(after, "RATE_LIMIT_BACKEND", "redis") && Holds(after, "RATE_LIMIT_REDIS_URL", "redis://redis:6379/0")
    ensures Holds(after, "CORS_ORIGINS", "http://localhost:5173")
  {
    var section := Gateway(args, draws);
    PutHolds(before, after, section, 0, "GATEWAY_PORT", "4321");
    PutHolds(before, after, section, 1, "GATEWAY_AUTH_API_URL",
        "http://" + args.apiHost + ":4319/api/internal/otlp/validate");
    PutHolds(before, after, section, 3, "GATEWAY_ALLOWLIST_FAIL_OPEN", "true");
    PutHolds(before, after, section, 5, "RATE_LIMIT_BACKEND", "redis");
    PutHolds(before, after, section, 6, "RATE_LIMIT_REDIS_URL", "redis://redis:6379/0");
    PutHolds(before, after, section, 8, "CORS_ORIGINS", "http://localhost:5173");
  }

  lemma GatewayDefaultsRead(before: File, after: File, args: Args, draws: Draws)
    requires SectionRead(before, after, Gateway(args, draws)) && GoodDraws(draws)
    ensures KeptOr(before, after, "GATEWAY_IP_ALLOWLIST", "")
    ensures KeptOr(before, after, "GATEWAY_TRUST_PROXY_HEADERS", "false")
    ensures KeptOr(before, after, "DATA_ENCRYPTION_KEY", draws.dataKey)
  {
    var section := Gateway(args, draws);
    DefaultHolds(before, after, section, 2, "GATEWAY_IP_ALLOWLIST", "");
    DefaultHolds(before, after, section, 4, "GATEWAY_TRUST_PROXY_HEADERS", "false");
    DefaultHolds(before, after, section, 7, "DATA_ENCRYPTION_KEY", draws.dataKey);
  }

  lemma GrafanaUserReads(before: File, after: File, args: Args)
    requires SectionRead(before, after, Grafana(args))
    ensures KeptOr(before, after, "GRAFANA_USERNAME", "admin")
  {
    DefaultHolds(before, after, Grafana(args), 0, "GRAFANA_USERNAME", "admin");
  }

  lemma GrafanaReads(before: File, after: File, args: Args)
    requires SectionRead(before, after, Grafana(args))
    ensures GrafanaValues(before, after, args)
  {
    GrafanaUserReads(before, after, args);
    var section := Grafana(args);
    PutHolds(before, after, section, 1, "GRAFANA_PASSWORD", args.adminPass);
    PutHolds(before, after, section, 2, "GF_SECURITY_ADMIN_PASSWORD", args.adminPass);
    PutHolds(before, after, section, 3, "GF_SERVER_ROOT_URL", "http://localhost:8080/grafana/");
    PutHolds(before, after, section, 4, "GF_SERVER_SERVE_FROM_SUB_PATH", "true");
    PutHolds(before, after, section, 5, "GF_AUTH_PROXY_ENABLED", "true");
    PutHolds(before, after, section, 6, "GF_AUTH_PROXY_HEADER_NAME", "X-WEBAUTH-USER");
  }

  lemma GrafanaProxyReads(before: File, after: File, headers: string, whitelist: string)
    requires SectionRead(before, after, GrafanaProxy(headers, whitelist))
    ensures GrafanaProxyValues(after, headers, whitelist)
  {
    var section := GrafanaProxy(headers, whitelist);
    PutHolds(before, after, section, 0, "GF_AUTH_PROXY_AUTO_SIGN_UP", "true");
    PutHolds(before, after, section, 1, "GF_AUTH_PROXY_HEADERS", headers);
    PutHolds(before, after, section, 2, "GF_AUTH_PROXY_WHITELIST", whitelist);
    PutHolds(before, after, section, 3, "GF_AUTH_ANONYMOUS_ENABLED", "false");
    PutHolds(before, after, section, 4, "GF_AUTH_BASIC_ENABLED", "true");
    PutHolds(before, after, section, 5, "GF_SECURITY_ALLOW_EMBEDDING", "true");
    PutHolds(before, after, section, 6, "GF_USERS_ALLOW_SIGN_UP", "false");
  }

  // ------------------------------------------------------------------ the prepared file

  lemma FirstSections(file: File, args: Args, draws: Draws, sections: seq<seq<Step>>)
    requires GoodDraws(draws) && Unbroken(args)
    requires sections == Sections(args, draws, PROXY_HEADERS, PROXY_WHITELIST)
    ensures var after := Prepared(file, args, draws);
            SectionRead(file, after, Runtime(args)) && SectionRead(file, after, Database(args)) &&
            SectionRead(file, after, Admin(args)) && SectionRead(file, after, Auth(draws))
  {
    SectionReads(file, args, draws, sections, 0);
    SectionReads(file, args, draws, sections, 1);
    SectionReads(file, args, draws, sections, 2);
    SectionReads(file, args, draws, sections, 3);
  }

  lemma LastSections(file: File, args: Args, draws: Draws, sections: seq<seq<Step>>)
    requires GoodDraws(draws) && Unbroken(args)
    requires sections == Sections(args, draws, PROXY_HEADERS, PROXY_WHITELIST)
    ensures var after := Prepared(file, args, draws);
            SectionRead(file, after, Services(draws)) && SectionRead(file, after, Gateway(args, draws)) &&
            SectionRead(file, after, Grafana(args)) &&
            SectionRead(file, after, GrafanaProxy(PROXY_HEADERS, PROXY_WHITELIST))
  {
    SectionReads(file, args, draws, sections, 4);
    SectionReads(file, args, draws, sections, 5);
    SectionReads(file, args, draws, sections, 6);
    SectionReads(file, args, draws, sections, 7);
  }

  lemma ArgumentsArePlaced(file: File, args: Args, draws: Draws)
    requires GoodDraws(draws) && Unbroken(args)
    ensures var after := Prepared(file, args, draws);
            RuntimeValues(after, args) && DatabaseValues(after, args) && AdminValues(file, after, args) &&
            GrafanaValues(file, after, args)
  {
    var sections := Sections(args, draws, PROXY_HEADERS, PROXY_WHITELIST);
    var after := Prepared(file, args, draws);
    FirstSections(file, args, draws, sections);
    LastSections(file, args, draws, sections);
    RuntimeReads(file, after, args);
    DatabaseReads(file, after, args);
    AdminReads(file, after, args);
    GrafanaReads(file, after, args);
  }

  lemma SecretsArePlaced(file: File, args: Args, draws: Draws)
    requires GoodDraws(draws) && Unbroken(args)
    ensures var after := Prepared(file, args, draws);
            AuthValues(file, after, draws) && OtlpValues(file, after, draws) && ServicesValues(file, after, draws) &&
            GatewayValues(file, after, args, draws) &&
            GrafanaProxyValues(after, PROXY_HEADERS, PROXY_WHITELIST)
  {
    var sections := Sections(args, draws, PROXY_HEADERS, PROXY_WHITELIST);
    var after := Prepared(file, args, draws);
    FirstSections(file, args, draws, sections);
    LastSections(file, args, draws, sections);
    AuthReads(file, after, draws);
    OtlpReads(file, after, draws);
    ServicesRead(file, after, draws);
    GatewayReads(file, after, args, draws);
    GrafanaProxyReads(file, after, PROXY_HEADERS, PROXY_WHITELIST);
  }

  /** Whatever the file held, and for all arguments that stay on their lines, every key of the
      script reads afterwards as it ought to: the arguments in their places, the constants,
      and for the rest what was there before, or else the default or the draw. */
  lemma EverythingIsPlaced(file: File, args: Args, draws: Draws)
    requires GoodDraws(draws) && Unbroken(args)
    ensures var after := Prepared(file, args, draws);
            RuntimeValues(after, args) && DatabaseValues(after, args) && AdminValues(file, after, args) &&
            AuthValues(file, after, draws) && OtlpValues(file, after, draws) && ServicesValues(file, after, draws) &&
            GatewayValues(file, after, args, draws) && GrafanaValues(file, after, args)
    ensures GrafanaProxyValues(Prepared(file, args, draws),
                "Email:X-WEBAUTH-EMAIL" + " Name:X-WEBAUTH-NAME" + " Role:X-WEBAUTH-ROLE",
                "127.0.0.1,::1,10.0.0.0/8" + ",172.16.0.0/12,192.168.0.0/16")
  {
    ArgumentsArePlaced(file, args, draws);
    SecretsArePlaced(file, args, draws);
  }

  /** A key outside the script reads as before. */
  lemma OtherKeysReadAsBefore(file: File, args: Args, draws: Draws, key: string)
    requires GoodDraws(draws) && Unbroken(args) && IsKey(key) && Outside(Script(args, draws), key)
    ensures Read(Prepared(file, args, draws), key) == Read(file, key)
  {
    ScriptIsWellFormed(args, draws);
    ScriptOneLineIff(args, draws);
    CreatedReads(file, key);
    OutsideReadsAsBefore(Created(file), Script(args, draws), key);
  }
}
