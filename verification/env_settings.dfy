/** prepare_env: the installer's script of .env edits. */
module EnvSettings {
  import opened Options
  import opened EnvText
  import opened EnvFile
  import opened EnvScript
  import opened EnvRerun

  datatype Args = Args(mode: string, adminUser: string, adminEmail: string, adminPass: string, apiHost: string)

  /** What random_alnum and fernet_key return in one run. */
  datatype Draws = Draws(
    webhook: string, otlp: string, gateway: string, notifierToken: string, notifierKey: string,
    resolverToken: string, resolverKey: string, dataKey: string)

  predicate GoodDraw(s: string) { Plain(s) && s != "" }

  predicate GoodDraws(d: Draws) {
    GoodDraw(d.webhook) && GoodDraw(d.otlp) && GoodDraw(d.gateway) && GoodDraw(d.notifierToken) &&
    GoodDraw(d.notifierKey) && GoodDraw(d.resolverToken) && GoodDraw(d.resolverKey) && GoodDraw(d.dataKey)
  }

  function DatabaseUrl(pass: string, name: string): string {
    "postgresql://watchdog:" + pass + "@postgres:5432/" + name
  }

  function AuthApiUrl(host: string): string { "http://" + host + ":4319/api/internal/otlp/validate" }

  function Put(key: string, value: string): Step { Step([key], Const(value)) }

  function PutIfMissing(key: string, value: string): Step { Step([key], Default(value)) }

  function Runtime(args: Args): seq<Step> {
    [
      Put("APP_ENV", args.mode),
      Put("ENVIRONMENT", args.mode),
      Put("HOST", "0.0.0.0"),
      Put("PORT", "4319"),
      Put("LOG_LEVEL", "info")
    ]
  }

  function Database(args: Args): seq<Step> {
    [
      Put("POSTGRES_USER", "watchdog"),
      Put("POSTGRES_PASSWORD", args.adminPass),
      Put("POSTGRES_DB", "watchdog"),
      Put("DATABASE_URL", DatabaseUrl(args.adminPass, "watchdog")),
      Put("NOTIFIER_DATABASE_URL", DatabaseUrl(args.adminPass, "watchdog_notified")),
      Put("RESOLVER_DATABASE_URL", DatabaseUrl(args.adminPass, "watchdog_resolver")),
      Put("DB_AUTO_CREATE_SCHEMA", "true")
    ]
  }

  function Admin(args: Args): seq<Step> {
    [
      Put("DEFAULT_ADMIN_BOOTSTRAP_ENABLED", "true"),
      Put("DEFAULT_ADMIN_USERNAME", args.adminUser),
      Put("DEFAULT_ADMIN_PASSWORD", args.adminPass),
      Put("DEFAULT_ADMIN_EMAIL", args.adminEmail),
      PutIfMissing("DEFAULT_ADMIN_TENANT", "default"),
      PutIfMissing("DEFAULT_ORG_ID", "default"),
      PutIfMissing("MIMIR_TENANT_ID", "default")
    ]
  }

  function Auth(draws: Draws): seq<Step> {
    [
      Step(["AUTH_PROVIDER"], Choice),
      Step(["AUTH_PASSWORD_FLOW_ENABLED"], Flag),
      PutIfMissing("JWT_ALGORITHM", "RS256"),
      PutIfMissing("JWT_EXPIRATION_MINUTES", "1440"),
      Put("JWT_AUTO_GENERATE_KEYS", "true"),
      PutIfMissing("INBOUND_WEBHOOK_TOKEN", draws.webhook),
      Step(["DEFAULT_OTLP_TOKEN", "OTLP_INGEST_TOKEN", "OTEL_OTLP_TOKEN", "GATEWAY_STATUS_OTLP_TOKEN"],
          Secret(draws.otlp)),
      PutIfMissing("GATEWAY_INTERNAL_SERVICE_TOKEN", draws.gateway)
    ]
  }

  function Services(draws: Draws): seq<Step> {
    [
      Step(["NOTIFIER_SERVICE_TOKEN", "NOTIFIER_EXPECTED_SERVICE_TOKEN"], Secret(draws.notifierToken)),
      Step(["NOTIFIER_CONTEXT_SIGNING_KEY", "NOTIFIER_CONTEXT_VERIFY_KEY"], Secret(draws.notifierKey)),
      Put("NOTIFIER_URL", "http://notifier:4323"),
      Step(["RESOLVER_SERVICE_TOKEN", "RESOLVER_EXPECTED_SERVICE_TOKEN"], Secret(draws.resolverToken)),
      Step(["RESOLVER_CONTEXT_SIGNING_KEY", "RESOLVER_CONTEXT_VERIFY_KEY"], Secret(draws.resolverKey)),
      Put("RESOLVER_URL", "http://resolver:4322")
    ]
  }

  function Gateway(args: Args, draws: Draws): seq<Step> {
    [
      Put("GATEWAY_PORT", "4321"),
      Put("GATEWAY_AUTH_API_URL", AuthApiUrl(args.apiHost)),
      PutIfMissing("GATEWAY_IP_ALLOWLIST", ""),
      Put("GATEWAY_ALLOWLIST_FAIL_OPEN", "true"),
      PutIfMissing("GATEWAY_TRUST_PROXY_HEADERS", "false"),
      Put("RATE_LIMIT_BACKEND", "redis"),
      Put("RATE_LIMIT_REDIS_URL", "redis://redis:6379/0"),
      PutIfMissing("DATA_ENCRYPTION_KEY", draws.dataKey),
      Put("CORS_ORIGINS", "http://localhost:5173")
    ]
  }

  function Grafana(args: Args): seq<Step> {
    [
      PutIfMissing("GRAFANA_USERNAME", "admin"),
      Put("GRAFANA_PASSWORD", args.adminPass),
      Put("GF_SECURITY_ADMIN_PASSWORD", args.adminPass),
      Put("GF_SERVER_ROOT_URL", "http://localhost:8080/grafana/"),
      Put("GF_SERVER_SERVE_FROM_SUB_PATH", "true"),
      Put("GF_AUTH_PROXY_ENABLED", "true"),
      Put("GF_AUTH_PROXY_HEADER_NAME", "X-WEBAUTH-USER")
    ]
  }

  function GrafanaProxy(headers: string, whitelist: string): seq<Step> {
    [
      Put("GF_AUTH_PROXY_AUTO_SIGN_UP", "true"),
      Put("GF_AUTH_PROXY_HEADERS", headers),
      Put("GF_AUTH_PROXY_WHITELIST", whitelist),
      Put("GF_AUTH_ANONYMOUS_ENABLED", "false"),
      Put("GF_AUTH_BASIC_ENABLED", "true"),
      Put("GF_SECURITY_ALLOW_EMBEDDING", "true"),
      Put("GF_USERS_ALLOW_SIGN_UP", "false")
    ]
  }

  const PROXY_HEADERS := "Email:X-WEBAUTH-EMAIL" + " Name:X-WEBAUTH-NAME" + " Role:X-WEBAUTH-ROLE"

  const PROXY_WHITELIST := "127.0.0.1,::1,10.0.0.0/8" + ",172.16.0.0/12,192.168.0.0/16"

  function Sections(args: Args, draws: Draws, headers: string, whitelist: string): seq<seq<Step>> {
    [
      Runtime(args), Database(args), Admin(args), Auth(draws),
      Services(draws), Gateway(args, draws), Grafana(args), GrafanaProxy(headers, whitelist)
    ]
  }

  function Flatten(sections: seq<seq<Step>>): seq<Step> {
    if sections == [] then [] else Flatten(sections[..|sections| - 1]) + sections[|sections| - 1]
  }

  function Script(args: Args, draws: Draws): seq<Step> {
    Flatten(Sections(args, draws, PROXY_HEADERS, PROXY_WHITELIST))
  }

  // ------------------------------------------------------------------ scripts in sections

  predicate Apart(a: seq<Step>, b: seq<Step>) {
    forall i, j | 0 <= i < |a| && 0 <= j < |b| :: Disjoint(a[i].keys, b[j].keys)
  }

  predicate AllApart(sections: seq<seq<Step>>) {
    forall i, j | 0 <= i < j < |sections| :: Apart(sections[i], sections[j])
  }

  predicate AllWellFormed(sections: seq<seq<Step>>) { forall i | 0 <= i < |sections| :: WellFormed(sections[i]) }

  lemma WellFormedConcat(a: seq<Step>, b: seq<Step>)
    requires WellFormed(a) && WellFormed(b) && Apart(a, b)
    ensures WellFormed(a + b)
  {
  }

  lemma ApartConcat(a: seq<Step>, b: seq<Step>, c: seq<Step>)
    requires Apart(a, c) && Apart(b, c)
    ensures Apart(a + b, c)
  {
  }

  lemma {:induction false} FlattenApart(sections: seq<seq<Step>>, last: seq<Step>)
    requires forall i | 0 <= i < |sections| :: Apart(sections[i], last)
    ensures Apart(Flatten(sections), last)
  {
    if sections != [] {
      var n := |sections| - 1;
      FlattenApart(sections[..n], last);
      ApartConcat(Flatten(sections[..n]), sections[n], last);
    }
  }

  lemma {:induction false} FlattenWellFormed(sections: seq<seq<Step>>)
    requires AllWellFormed(sections) && AllApart(sections)
    ensures WellFormed(Flatten(sections))
  {
    if sections != [] {
      var n := |sections| - 1;
      FlattenWellFormed(sections[..n]);
      FlattenApart(sections[..n], sections[n]);
      WellFormedConcat(Flatten(sections[..n]), sections[n]);
    }
  }

  lemma {:induction false} FlattenAlike(a: seq<seq<Step>>, b: seq<seq<Step>>)
    requires |a| == |b| && forall i | 0 <= i < |a| :: AlikeScripts(a[i], b[i])
    ensures AlikeScripts(Flatten(a), Flatten(b))
  {
    if a != [] {
      FlattenAlike(a[..|a| - 1], b[..|a| - 1]);
    }
  }

  lemma OneLineConcat(a: seq<Step>, b: seq<Step>)
    ensures OneLineScript(a + b) <==> OneLineScript(a) && OneLineScript(b)
  {
    if OneLineScript(a + b) {
      assert forall i | 0 <= i < |a| :: a[i] == (a + b)[i];
      assert forall i | 0 <= i < |b| :: b[i] == (a + b)[|a| + i];
    }
  }

  lemma {:induction false} FlattenOneLine(sections: seq<seq<Step>>)
    ensures OneLineScript(Flatten(sections)) <==> forall i | 0 <= i < |sections| :: OneLineScript(sections[i])
  {
    if sections != [] {
      var n := |sections| - 1;
      FlattenOneLine(sections[..n]);
      OneLineConcat(Flatten(sections[..n]), sections[n]);
      assert forall i | 0 <= i < n :: sections[..n][i] == sections[i];
    }
  }

  // ------------------------------------------------------------------ the keys are distinct

  lemma RuntimeApartDatabaseAdminAuth(args: Args, draws: Draws)
    ensures Apart(Runtime(args), Database(args))
    ensures Apart(Runtime(args), Admin(args))
    ensures Apart(Runtime(args), Auth(draws))
  {
  }

  lemma RuntimeApartServicesGatewayGrafana(args: Args, draws: Draws)
    ensures Apart(Runtime(args), Services(draws))
    ensures Apart(Runtime(args), Gateway(args, draws))
    ensures Apart(Runtime(args), Grafana(args))
  {
  }

  lemma DatabaseApartAdminAuth(args: Args, draws: Draws)
    ensures Apart(Database(args), Admin(args))
    ensures Apart(Database(args), Auth(draws))
  {
  }

  lemma DatabaseApartServices(args: Args, draws: Draws)
    ensures Apart(Database(args), Services(draws))
  {
  }

  lemma DatabaseApartGateway(args: Args, draws: Draws)
    ensures Apart(Database(args), Gateway(args, draws))
  {
  }

  lemma DatabaseApartGrafana(args: Args)
    ensures Apart(Database(args), Grafana(args))
  {
  }

  lemma AdminApartAuthServices(args: Args, draws: Draws)
    ensures Apart(Admin(args), Auth(draws))
    ensures Apart(Admin(args), Services(draws))
  {
  }

  lemma AdminApartGatewayGrafana(args: Args, draws: Draws)
    ensures Apart(Admin(args), Gateway(args, draws))
    ensures Apart(Admin(args), Grafana(args))
  {
  }

  lemma AuthApartServices(draws: Draws)
    ensures Apart(Auth(draws), Services(draws))
  {
  }

  lemma AuthApartGateway(draws: Draws, args: Args)
    ensures Apart(Auth(draws), Gateway(args, draws))
  {
  }

  lemma AuthApartGrafana(args: Args, draws: Draws)
    ensures Apart(Auth(draws), Grafana(args))
  {
  }

  lemma ServicesApartGatewayGrafana(args: Args, draws: Draws)
    ensures Apart(Services(draws), Gateway(args, draws))
    ensures Apart(Services(draws), Grafana(args))
  {
  }

  lemma GatewayApartGrafana(args: Args, draws: Draws)
    ensures Apart(Gateway(args, draws), Grafana(args))
  {
  }

  lemma RuntimeApartGrafanaProxy(args: Args, headers: string, whitelist: string)
    ensures Apart(Runtime(args), GrafanaProxy(headers, whitelist))
  {
  }

  lemma DatabaseApartGrafanaProxy(args: Args, headers: string, whitelist: string)
    ensures Apart(Database(args), GrafanaProxy(headers, whitelist))
  {
  }

  lemma AdminApartGrafanaProxy(args: Args, headers: string, whitelist: string)
    ensures Apart(Admin(args), GrafanaProxy(headers, whitelist))
  {
  }

  lemma AuthApartGrafanaProxy(draws: Draws, headers: string, whitelist: string)
    ensures Apart(Auth(draws), GrafanaProxy(headers, whitelist))
  {
  }

  lemma ServicesApartGrafanaProxy(draws: Draws, headers: string, whitelist: string)
    ensures Apart(Services(draws), GrafanaProxy(headers, whitelist))
  {
  }

  lemma GatewayApartGrafanaProxy(args: Args, draws: Draws, headers: string, whitelist: string)
    ensures Apart(Gateway(args, draws), GrafanaProxy(headers, whitelist))
  {
  }

  lemma GrafanaApartGrafanaProxy(args: Args, headers: string, whitelist: string)
    ensures Apart(Grafana(args), GrafanaProxy(headers, whitelist))
  {
  }

  lemma SectionsApart(args: Args, draws: Draws, headers: string, whitelist: string)
    ensures AllApart(Sections(args, draws, headers, whitelist))
  {
    RuntimeApartDatabaseAdminAuth(args, draws);
    RuntimeApartServicesGatewayGrafana(args, draws);
    DatabaseApartAdminAuth(args, draws);
    DatabaseApartServices(args, draws);
    DatabaseApartGateway(args, draws);
    DatabaseApartGrafana(args);
    AdminApartAuthServices(args, draws);
    AdminApartGatewayGrafana(args, draws);
    AuthApartServices(draws);
    AuthApartGateway(draws, args);
    AuthApartGrafana(args, draws);
    ServicesApartGatewayGrafana(args, draws);
    GatewayApartGrafana(args, draws);
    RuntimeApartGrafanaProxy(args, headers, whitelist);
    DatabaseApartGrafanaProxy(args, headers, whitelist);
    AdminApartGrafanaProxy(args, headers, whitelist);
    AuthApartGrafanaProxy(draws, headers, whitelist);
    ServicesApartGrafanaProxy(draws, headers, whitelist);
    GatewayApartGrafanaProxy(args, draws, headers, whitelist);
    GrafanaApartGrafanaProxy(args, headers, whitelist);
  }

  // ------------------------------------------------------------------ every edit is well formed

  predicate Upper(key: string) { forall i | 0 <= i < |key| :: 'A' <= key[i] <= 'Z' || key[i] == '_' }

  predicate Printable(s: string) { forall i | 0 <= i < |s| :: ' ' <= s[i] <= '~' }

  predicate GoodSteps(script: seq<Step>) { forall i | 0 <= i < |script| :: GoodStep(script[i]) }

  predicate Spread(script: seq<Step>) {
    forall i, j | 0 <= i < j < |script| :: Disjoint(script[i].keys, script[j].keys)
  }

  lemma UpperKeysAreKeys()
    ensures forall key: string | Upper(key) :: IsKey(key)
  {
  }

  lemma DefaultsArePrintable()
    ensures Printable("default") && Printable("RS256") && Printable("1440") && Printable("")
    ensures Printable("false") && Printable("admin")
  {
  }

  lemma PrintableIsPlain()
    ensures forall s: string | Printable(s) :: Plain(s)
  {
  }

  lemma RuntimeKeys()
    ensures Upper("APP_ENV") && Upper("ENVIRONMENT") && Upper("HOST") && Upper("PORT") && Upper("LOG_LEVEL")
  {
  }

  lemma RuntimeSpread(args: Args)
    ensures Spread(Runtime(args))
  {
  }

  lemma RuntimeGood(args: Args)
    ensures GoodSteps(Runtime(args))
  {
    RuntimeKeys();
    UpperKeysAreKeys();
  }

  lemma DatabaseKeys1()
    ensures Upper("POSTGRES_USER") && Upper("POSTGRES_PASSWORD") && Upper("POSTGRES_DB")
    ensures Upper("DATABASE_URL") && Upper("NOTIFIER_DATABASE_URL") && Upper("RESOLVER_DATABASE_URL")
  {
  }

  lemma DatabaseKeys2()
    ensures Upper("DB_AUTO_CREATE_SCHEMA")
  {
  }

  lemma DatabaseSpread(args: Args)
    ensures Spread(Database(args))
  {
  }

  lemma DatabaseGood(args: Args)
    ensures GoodSteps(Database(args))
  {
    DatabaseKeys1();
    DatabaseKeys2();
    UpperKeysAreKeys();
  }

  lemma AdminKeys1()
    ensures Upper("DEFAULT_ADMIN_BOOTSTRAP_ENABLED") && Upper("DEFAULT_ADMIN_USERNAME")
    ensures Upper("DEFAULT_ADMIN_PASSWORD") && Upper("DEFAULT_ADMIN_EMAIL")
  {
  }

  lemma AdminKeys2()
    ensures Upper("DEFAULT_ADMIN_TENANT") && Upper("DEFAULT_ORG_ID") && Upper("MIMIR_TENANT_ID")
  {
  }

  lemma AdminSpread(args: Args)
    ensures Spread(Admin(args))
  {
  }

  lemma AdminGood(args: Args)
    ensures GoodSteps(Admin(args))
  {
    AdminKeys1();
    AdminKeys2();
    UpperKeysAreKeys();
    PrintableIsPlain();
    DefaultsArePrintable();
  }

  lemma AuthKeys1()
    ensures Upper("AUTH_PROVIDER") && Upper("AUTH_PASSWORD_FLOW_ENABLED") && Upper("JWT_ALGORITHM")
    ensures Upper("JWT_EXPIRATION_MINUTES") && Upper("JWT_AUTO_GENERATE_KEYS")
  {
  }

  lemma AuthKeys2()
    ensures Upper("INBOUND_WEBHOOK_TOKEN") && Upper("DEFAULT_OTLP_TOKEN") && Upper("OTLP_INGEST_TOKEN")
    ensures Upper("OTEL_OTLP_TOKEN") && Upper("GATEWAY_STATUS_OTLP_TOKEN")
  {
  }

  lemma AuthKeys3()
    ensures Upper("GATEWAY_INTERNAL_SERVICE_TOKEN")
  {
  }

  lemma AuthSpread(draws: Draws)
    ensures Spread(Auth(draws))
  {
  }

  lemma AuthGood(draws: Draws)
    requires GoodDraws(draws)
    ensures GoodSteps(Auth(draws))
  {
    AuthKeys1();
    AuthKeys2();
    AuthKeys3();
    UpperKeysAreKeys();
    PrintableIsPlain();
    DefaultsArePrintable();
  }

  lemma ServicesKeys1()
    ensures Upper("NOTIFIER_SERVICE_TOKEN") && Upper("NOTIFIER_EXPECTED_SERVICE_TOKEN")
    ensures Upper("NOTIFIER_CONTEXT_SIGNING_KEY") && Upper("NOTIFIER_CONTEXT_VERIFY_KEY")
  {
  }

  lemma ServicesKeys2()
    ensures Upper("NOTIFIER_URL") && Upper("RESOLVER_SERVICE_TOKEN") && Upper("RESOLVER_EXPECTED_SERVICE_TOKEN")
    ensures Upper("RESOLVER_CONTEXT_SIGNING_KEY")
  {
  }

  lemma ServicesKeys3()
    ensures Upper("RESOLVER_CONTEXT_VERIFY_KEY") && Upper("RESOLVER_URL")
  {
  }

  lemma ServicesSpread(draws: Draws)
    ensures Spread(Services(draws))
  {
  }

  lemma ServicesGood(draws: Draws)
    requires GoodDraws(draws)
    ensures GoodSteps(Services(draws))
  {
    ServicesKeys1();
    ServicesKeys2();
    ServicesKeys3();
    UpperKeysAreKeys();
  }

  lemma GatewayKeys1()
    ensures Upper("GATEWAY_PORT") && Upper("GATEWAY_AUTH_API_URL") && Upper("GATEWAY_IP_ALLOWLIST")
    ensures Upper("GATEWAY_ALLOWLIST_FAIL_OPEN") && Upper("GATEWAY_TRUST_PROXY_HEADERS")
  {
  }

  lemma GatewayKeys2()
    ensures Upper("RATE_LIMIT_BACKEND") && Upper("RATE_LIMIT_REDIS_URL") && Upper("DATA_ENCRYPTION_KEY")
    ensures Upper("CORS_ORIGINS")
  {
  }

  lemma GatewaySpread(args: Args, draws: Draws)
    ensures Spread(Gateway(args, draws))
  {
  }

  lemma GatewayGood(args: Args, draws: Draws)
    requires GoodDraws(draws)
    ensures GoodSteps(Gateway(args, draws))
  {
    GatewayKeys1();
    GatewayKeys2();
    UpperKeysAreKeys();
    PrintableIsPlain();
    DefaultsArePrintable();
  }

  lemma GrafanaKeys1()
    ensures Upper("GRAFANA_USERNAME") && Upper("GRAFANA_PASSWORD") && Upper("GF_SECURITY_ADMIN_PASSWORD")
    ensures Upper("GF_SERVER_ROOT_URL") && Upper("GF_SERVER_SERVE_FROM_SUB_PATH")
  {
  }

  lemma GrafanaKeys2()
    ensures Upper("GF_AUTH_PROXY_ENABLED") && Upper("GF_AUTH_PROXY_HEADER_NAME")
  {
  }

  lemma GrafanaSpread(args: Args)
    ensures Spread(Grafana(args))
  {
  }

  lemma GrafanaGood(args: Args)
    ensures GoodSteps(Grafana(args))
  {
    GrafanaKeys1();
    GrafanaKeys2();
    UpperKeysAreKeys();
    PrintableIsPlain();
    DefaultsArePrintable();
  }

  lemma GrafanaProxyKeys1()
    ensures Upper("GF_AUTH_PROXY_AUTO_SIGN_UP") && Upper("GF_AUTH_PROXY_HEADERS")
    ensures Upper("GF_AUTH_PROXY_WHITELIST") && Upper("GF_AUTH_ANONYMOUS_ENABLED")
  {
  }

  lemma GrafanaProxyKeys2()
    ensures Upper("GF_AUTH_BASIC_ENABLED") && Upper("GF_SECURITY_ALLOW_EMBEDDING") && Upper("GF_USERS_ALLOW_SIGN_UP")
  {
  }

  lemma GrafanaProxySpread(headers: string, whitelist: string)
    ensures Spread(GrafanaProxy(headers, whitelist))
  {
  }

  lemma GrafanaProxyGood(headers: string, whitelist: string)
    ensures GoodSteps(GrafanaProxy(headers, whitelist))
  {
    GrafanaProxyKeys1();
    GrafanaProxyKeys2();
    UpperKeysAreKeys();
  }

  // ------------------------------------------------------------------ constants on one line

  lemma OneLineIffPlain(prefix: string, v: string, suffix: string)
    requires Printable(prefix) && Printable(suffix) && suffix != ""
    ensures OneLine(prefix + v + suffix) <==> Plain(v)
  {
    var t := v + suffix;
    PrintableIsPlain();
    assert prefix + v + suffix == prefix + t;
    OneLineAfterPlain(prefix, t);
    assert t[|t| - 1] == suffix[|suffix| - 1];
    assert forall i | 0 <= i < |v| :: t[i] == v[i];
  }

  lemma DatabaseUrlOneLine(pass: string, name: string)
    requires Printable(name)
    ensures OneLine(DatabaseUrl(pass, name)) <==> Plain(pass)
  {
    assert Printable("postgresql://watchdog:") && Printable("@postgres:5432/");
    assert DatabaseUrl(pass, name) == "postgresql://watchdog:" + pass + ("@postgres:5432/" + name);
    OneLineIffPlain("postgresql://watchdog:", pass, "@postgres:5432/" + name);
  }

  lemma AuthApiUrlOneLine(host: string)
    ensures OneLine(AuthApiUrl(host)) <==> Plain(host)
  {
    assert Printable("http://") && Printable(":4319/api/internal/otlp/validate");
    OneLineIffPlain("http://", host, ":4319/api/internal/otlp/validate");
  }

  lemma FlagsArePrintable()
    ensures Printable("true") && Printable("false")
  {
  }

  lemma RuntimeValues()
    ensures Printable("0.0.0.0") && Printable("4319") && Printable("info")
  {
  }

  lemma RuntimeOneLine(args: Args)
    ensures OneLineScript(Runtime(args)) <==> OneLine(args.mode)
  {
    RuntimeValues();
    PrintableIsPlain();
    assert OneLineScript(Runtime(args)) ==> OneLineStep(Runtime(args)[0]);
  }

  lemma DatabaseValues()
    ensures Printable("watchdog") && Printable("watchdog_notified") && Printable("watchdog_resolver")
  {
  }

  lemma DatabaseOneLine(args: Args)
    ensures OneLineScript(Database(args)) <==> Plain(args.adminPass)
  {
    FlagsArePrintable();
    DatabaseValues();
    PrintableIsPlain();
    DatabaseUrlOneLine(args.adminPass, "watchdog");
    DatabaseUrlOneLine(args.adminPass, "watchdog_notified");
    DatabaseUrlOneLine(args.adminPass, "watchdog_resolver");
    assert OneLineScript(Database(args)) ==> OneLineStep(Database(args)[3]);
  }

  lemma AdminOneLine(args: Args)
    ensures OneLineScript(Admin(args)) <==>
            OneLine(args.adminUser) && OneLine(args.adminPass) && OneLine(args.adminEmail)
  {
    FlagsArePrintable();
    PrintableIsPlain();
    assert OneLineScript(Admin(args)) ==>
             OneLineStep(Admin(args)[1]) && OneLineStep(Admin(args)[2]) && OneLineStep(Admin(args)[3]);
  }

  lemma AuthOneLine(draws: Draws)
    ensures OneLineScript(Auth(draws))
  {
    FlagsArePrintable();
    PrintableIsPlain();
  }

  lemma ServicesValues()
    ensures Printable("http://notifier:4323") && Printable("http://resolver:4322")
  {
  }

  lemma ServicesOneLine(draws: Draws)
    ensures OneLineScript(Services(draws))
  {
    ServicesValues();
    PrintableIsPlain();
  }

  lemma GatewayValues()
    ensures Printable("4321") && Printable("redis") && Printable("redis://redis:6379/0")
    ensures Printable("http://localhost:5173")
  {
  }

  lemma GatewayOneLine(args: Args, draws: Draws)
    ensures OneLineScript(Gateway(args, draws)) <==> Plain(args.apiHost)
  {
    FlagsArePrintable();
    GatewayValues();
    PrintableIsPlain();
    AuthApiUrlOneLine(args.apiHost);
    assert OneLineScript(Gateway(args, draws)) ==> OneLineStep(Gateway(args, draws)[1]);
  }

  lemma GrafanaValues()
    ensures Printable("http://localhost:8080/grafana/") && Printable("X-WEBAUTH-USER")
  {
  }

  lemma GrafanaOneLine(args: Args)
    ensures OneLineScript(Grafana(args)) <==> OneLine(args.adminPass)
  {
    FlagsArePrintable();
    GrafanaValues();
    PrintableIsPlain();
    assert OneLineScript(Grafana(args)) ==> OneLineStep(Grafana(args)[1]);
  }

  lemma GrafanaProxyOneLine(headers: string, whitelist: string)
    requires Printable(headers) && Printable(whitelist)
    ensures OneLineScript(GrafanaProxy(headers, whitelist))
  {
    FlagsArePrintable();
    PrintableIsPlain();
  }
}
