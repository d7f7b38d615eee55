/** What prepare_env does to any .env file, and the editor that runs it. */
module PrepareEnv {
  import opened Options
  import opened EnvText
  import opened EnvFile
  import opened EnvScript
  import opened EnvRerun
  import opened EnvSettings

  /** prepare_env creates a missing file before it edits it. */
  function Created(file: File): File { if file.None? then Some("") else file }

  /** prepare_env */
  ghost function Prepared(file: File, args: Args, draws: Draws): File
    requires GoodDraws(draws)
  {
    ScriptIsWellFormed(args, draws);
    Run(Created(file), Script(args, draws))
  }

  /** Arguments that stay on the lines they are written to. Those embedded in a URL may not
      end with a carriage return either. */
  predicate Unbroken(args: Args) {
    OneLine(args.mode) && OneLine(args.adminUser) && OneLine(args.adminEmail) &&
    Plain(args.adminPass) && Plain(args.apiHost)
  }

  // ------------------------------------------------------------------ the script as a whole

  lemma SectionsAreWellFormed(args: Args, draws: Draws, headers: string, whitelist: string)
    requires GoodDraws(draws)
    ensures AllWellFormed(Sections(args, draws, headers, whitelist))
  {
    RuntimeGood(args);
    RuntimeSpread(args);
    DatabaseGood(args);
    DatabaseSpread(args);
    AdminGood(args);
    AdminSpread(args);
    AuthGood(draws);
    AuthSpread(draws);
    ServicesGood(draws);
    ServicesSpread(draws);
    GatewayGood(args, draws);
    GatewaySpread(args, draws);
    GrafanaGood(args);
    GrafanaSpread(args);
    GrafanaProxyGood(headers, whitelist);
    GrafanaProxySpread(headers, whitelist);
  }

  lemma ScriptIsWellFormed(args: Args, draws: Draws)
    requires GoodDraws(draws)
    ensures WellFormed(Script(args, draws)) && HasKeys(Script(args, draws))
  {
    SectionsAreWellFormed(args, draws, PROXY_HEADERS, PROXY_WHITELIST);
    SectionsApart(args, draws, PROXY_HEADERS, PROXY_WHITELIST);
    FlattenWellFormed(Sections(args, draws, PROXY_HEADERS, PROXY_WHITELIST));
    assert forall i | 0 <= i < |Script(args, draws)| :: GoodStep(Script(args, draws)[i]);
  }

  lemma SectionsAreAlike(args: Args, a: Draws, b: Draws, headers: string, whitelist: string)
    ensures var x, y := Sections(args, a, headers, whitelist), Sections(args, b, headers, whitelist);
            forall i | 0 <= i < |x| :: AlikeScripts(x[i], y[i])
  {
    assert AlikeScripts(Auth(a), Auth(b));
    assert AlikeScripts(Services(a), Services(b));
    assert AlikeScripts(Gateway(args, a), Gateway(args, b));
  }

  lemma ScriptsAreAlike(args: Args, a: Draws, b: Draws)
    ensures AlikeScripts(Script(args, a), Script(args, b))
  {
    SectionsAreAlike(args, a, b, PROXY_HEADERS, PROXY_WHITELIST);
    FlattenAlike(Sections(args, a, PROXY_HEADERS, PROXY_WHITELIST), Sections(args, b, PROXY_HEADERS, PROXY_WHITELIST));
  }

  lemma FlattenEnds(args: Args, draws: Draws, headers: string, whitelist: string)
    ensures EndsPlain(Flatten(Sections(args, draws, headers, whitelist)))
  {
    var sections := Sections(args, draws, headers, whitelist);
    assert Flatten(sections) == Flatten(sections[..7]) + GrafanaProxy(headers, whitelist);
    assert Printable("false");
    PrintableIsPlain();
  }

  lemma ScriptEndsPlain(args: Args, draws: Draws)
    ensures EndsPlain(Script(args, draws))
  {
    FlattenEnds(args, draws, PROXY_HEADERS, PROXY_WHITELIST);
  }

  lemma SectionsOneLineIff(args: Args, draws: Draws, headers: string, whitelist: string)
    requires Printable(headers) && Printable(whitelist)
    ensures OneLineScript(Flatten(Sections(args, draws, headers, whitelist))) <==> Unbroken(args)
  {
    var sections := Sections(args, draws, headers, whitelist);
    FlattenOneLine(sections);
    RuntimeOneLine(args);
    DatabaseOneLine(args);
    AdminOneLine(args);
    AuthOneLine(draws);
    ServicesOneLine(draws);
    GatewayOneLine(args, draws);
    GrafanaOneLine(args);
    GrafanaProxyOneLine(headers, whitelist);
    if OneLineScript(Flatten(sections)) {
      assert OneLineScript(sections[0]) && OneLineScript(sections[1]) && OneLineScript(sections[2]);
      assert OneLineScript(sections[5]);
    }
  }

  lemma ScriptOneLineIff(args: Args, draws: Draws)
    ensures OneLineScript(Script(args, draws)) <==> Unbroken(args)
  {
    HeadersArePrintable();
    WhitelistIsPrintable();
    SectionsOneLineIff(args, draws, PROXY_HEADERS, PROXY_WHITELIST);
  }

  lemma HeadersArePrintable()
    ensures Printable(PROXY_HEADERS)
  {
    assert Printable("Email:X-WEBAUTH-EMAIL") && Printable(" Name:X-WEBAUTH-NAME") && Printable(" Role:X-WEBAUTH-ROLE");
  }

  lemma WhitelistIsPrintable()
    ensures Printable(PROXY_WHITELIST)
  {
    assert Printable("127.0.0.1,::1,10.0.0.0/8") && Printable(",172.16.0.0/12,192.168.0.0/16");
  }

  // ------------------------------------------------------------------ the two promises

  /** Preparing a file a second time with the same arguments, whatever the second run
      draws, leaves every byte as the first run wrote it exactly when the arguments stay on
      their lines: for any initial file, missing ones included. */
  lemma PreparingAgainChangesNothingIff(file: File, args: Args, first: Draws, second: Draws)
    requires GoodDraws(first) && GoodDraws(second)
    ensures Prepared(Prepared(file, args, first), args, second) == Prepared(file, args, first) <==> Unbroken(args)
  {
    ScriptIsWellFormed(args, first);
    ScriptIsWellFormed(args, second);
    ScriptsAreAlike(args, first, second);
    ScriptEndsPlain(args, first);
    ScriptEndsPlain(args, second);
    ScriptOneLineIff(args, first);
    RunEndsClean(Created(file), Script(args, first));
    RerunIff(Created(file), Script(args, first), Script(args, second));
  }

  /** Both keys hold the same nonempty value. */
  predicate Paired(file: File, a: string, b: string) {
    Read(file, a).Some? && Read(file, a).value != "" && Read(file, a) == Read(file, b)
  }

  predicate SectionSpares(section: seq<Step>, keys: seq<string>) {
    forall k | 0 <= k < |section| :: Spares(section[k], keys)
  }

  lemma {:induction false} InFlattened(sections: seq<seq<Step>>, j: nat, k: nat) returns (i: nat)
    requires j < |sections| && k < |sections[j]|
    requires forall l | j <= l < |sections| :: SectionSpares(sections[l], sections[j][k].keys)
    ensures i < |Flatten(sections)| && Flatten(sections)[i] == sections[j][k] && SparedAfter(Flatten(sections), i)
  {
    var n := |sections| - 1;
    var before := Flatten(sections[..n]);
    if j == n {
      i := |before| + k;
    } else {
      i := InFlattened(sections[..n], j, k);
    }
    forall m | i < m < |Flatten(sections)| ensures Spares(Flatten(sections)[m], sections[j][k].keys) {
      if m < |before| { assert Flatten(sections)[m] == before[m]; }
      else { assert Flatten(sections)[m] == sections[n][m - |before|]; }
    }
  }

  lemma SecretPaired(file: File, script: seq<Step>, sections: seq<seq<Step>>, j: nat, k: nat, b: nat)
    requires HasKeys(script) && WellFormed(script) && script == Flatten(sections)
    requires j < |sections| && k < |sections[j]| && sections[j][k].rule.Secret?
    requires sections[j][k].keys != [] && b < |sections[j][k].keys|
    requires forall l | j <= l < |sections| :: SectionSpares(sections[l], sections[j][k].keys)
    ensures Paired(Run(file, script), sections[j][k].keys[0], sections[j][k].keys[b])
  {
    var i := InFlattened(sections, j, k);
    SharedKeysAgree(file, script, i, 0, b);
  }

  ghost predicate OtlpPaired(after: File) {
    Paired(after, "DEFAULT_OTLP_TOKEN", "OTLP_INGEST_TOKEN") &&
    Paired(after, "DEFAULT_OTLP_TOKEN", "OTEL_OTLP_TOKEN") &&
    Paired(after, "DEFAULT_OTLP_TOKEN", "GATEWAY_STATUS_OTLP_TOKEN")
  }

  ghost predicate ServicesPaired(after: File) {
    Paired(after, "NOTIFIER_SERVICE_TOKEN", "NOTIFIER_EXPECTED_SERVICE_TOKEN") &&
    Paired(after, "NOTIFIER_CONTEXT_SIGNING_KEY", "NOTIFIER_CONTEXT_VERIFY_KEY") &&
    Paired(after, "RESOLVER_SERVICE_TOKEN", "RESOLVER_EXPECTED_SERVICE_TOKEN") &&
    Paired(after, "RESOLVER_CONTEXT_SIGNING_KEY", "RESOLVER_CONTEXT_VERIFY_KEY")
  }

  /** No line of what is written after the secrets sets one of these keys. Of the arguments
      only the API host and the password are written that late. */
  predicate Undisturbed(args: Args, keys: seq<string>) {
    forall b | 0 <= b < |keys| ::
      Misses("GATEWAY_AUTH_API_URL", AuthApiUrl(args.apiHost), keys[b]) &&
      Misses("GRAFANA_PASSWORD", args.adminPass, keys[b]) &&
      Misses("GF_SECURITY_ADMIN_PASSWORD", args.adminPass, keys[b])
  }

  lemma OneLineSpares(section: seq<Step>, keys: seq<string>)
    requires OneLineScript(section)
    ensures SectionSpares(section, keys)
  {
    forall k | 0 <= k < |section| ensures Spares(section[k], keys) { assert OneLineStep(section[k]); }
  }

  lemma GatewaySpares(args: Args, draws: Draws, keys: seq<string>)
    requires Undisturbed(args, keys)
    ensures SectionSpares(Gateway(args, draws), keys)
  {
    var plain := args.(apiHost := "");
    GatewayOneLine(plain, draws);
    OneLineSpares(Gateway(plain, draws), keys);
    var section := Gateway(args, draws);
    forall k | 0 <= k < |section| ensures Spares(section[k], keys) {
      if k != 1 { assert section[k] == Gateway(plain, draws)[k]; }
    }
  }

  lemma GrafanaSpares(args: Args, keys: seq<string>)
    requires Undisturbed(args, keys)
    ensures SectionSpares(Grafana(args), keys)
  {
    var plain := args.(adminPass := "");
    GrafanaOneLine(plain);
    OneLineSpares(Grafana(plain), keys);
    var section := Grafana(args);
    forall k | 0 <= k < |section| ensures Spares(section[k], keys) {
      if k != 1 && k != 2 { assert section[k] == Grafana(plain)[k]; }
    }
  }

  lemma LaterSectionsSpare(args: Args, draws: Draws, headers: string, whitelist: string, keys: seq<string>)
    requires Undisturbed(args, keys) && Printable(headers) && Printable(whitelist)
    ensures var sections := Sections(args, draws, headers, whitelist);
            forall l | 3 <= l < |sections| :: SectionSpares(sections[l], keys)
  {
    AuthOneLine(draws);
    OneLineSpares(Auth(draws), keys);
    ServicesOneLine(draws);
    OneLineSpares(Services(draws), keys);
    GatewaySpares(args, draws, keys);
    GrafanaSpares(args, keys);
    GrafanaProxyOneLine(headers, whitelist);
    OneLineSpares(GrafanaProxy(headers, whitelist), keys);
  }

  ghost predicate Spared(sections: seq<seq<Step>>, j: nat, k: nat) {
    j < |sections| && k < |sections[j]| &&
    forall l | j <= l < |sections| :: SectionSpares(sections[l], sections[j][k].keys)
  }

  lemma OtlpPair(file: File, script: seq<Step>, sections: seq<seq<Step>>, draws: Draws)
    requires HasKeys(script) && WellFormed(script) && script == Flatten(sections)
    requires |sections| > 3 && sections[3] == Auth(draws) && Spared(sections, 3, 6)
    ensures OtlpPaired(Run(file, script))
  {
    SecretPaired(file, script, sections, 3, 6, 1);
    SecretPaired(file, script, sections, 3, 6, 2);
    SecretPaired(file, script, sections, 3, 6, 3);
  }

  lemma ServicesPair(file: File, script: seq<Step>, sections: seq<seq<Step>>, draws: Draws)
    requires HasKeys(script) && WellFormed(script) && script == Flatten(sections)
    requires |sections| > 4 && sections[4] == Services(draws)
    requires Spared(sections, 4, 0) && Spared(sections, 4, 1) && Spared(sections, 4, 3) && Spared(sections, 4, 4)
    ensures ServicesPaired(Run(file, script))
  {
    SecretPaired(file, script, sections, 4, 0, 1);
    SecretPaired(file, script, sections, 4, 1, 1);
    SecretPaired(file, script, sections, 4, 3, 1);
    SecretPaired(file, script, sections, 4, 4, 1);
  }

  /** The keys of each secret. */
  function SecretKeys(): seq<seq<string>> {
    [
      ["DEFAULT_OTLP_TOKEN", "OTLP_INGEST_TOKEN", "OTEL_OTLP_TOKEN", "GATEWAY_STATUS_OTLP_TOKEN"],
      ["NOTIFIER_SERVICE_TOKEN", "NOTIFIER_EXPECTED_SERVICE_TOKEN"],
      ["NOTIFIER_CONTEXT_SIGNING_KEY", "NOTIFIER_CONTEXT_VERIFY_KEY"],
      ["RESOLVER_SERVICE_TOKEN", "RESOLVER_EXPECTED_SERVICE_TOKEN"],
      ["RESOLVER_CONTEXT_SIGNING_KEY", "RESOLVER_CONTEXT_VERIFY_KEY"]
    ]
  }

  lemma SecretsAreSteps(draws: Draws)
    ensures |Auth(draws)| == 8 && Auth(draws)[6].keys == SecretKeys()[0]
    ensures |Services(draws)| == 6 && Services(draws)[0].keys == SecretKeys()[1]
    ensures Services(draws)[1].keys == SecretKeys()[2]
    ensures Services(draws)[3].keys == SecretKeys()[3] && Services(draws)[4].keys == SecretKeys()[4]
  {
  }

  lemma SecretSpared(sections: seq<seq<Step>>, args: Args, draws: Draws, j: nat, k: nat)
    requires sections == Sections(args, draws, PROXY_HEADERS, PROXY_WHITELIST)
    requires 3 <= j < |sections| && k < |sections[j]| && Undisturbed(args, sections[j][k].keys)
    ensures Spared(sections, j, k)
  {
    HeadersArePrintable();
    WhitelistIsPrintable();
    LaterSectionsSpare(args, draws, PROXY_HEADERS, PROXY_WHITELIST, sections[j][k].keys);
  }

  /** Every pair of secrets the services compare agrees after the run, unless the API host
      or the password has a line that sets one of their keys. */
  lemma SecretsArePaired(file: File, args: Args, draws: Draws)
    requires GoodDraws(draws) && forall i | 0 <= i < 5 :: Undisturbed(args, SecretKeys()[i])
    ensures OtlpPaired(Prepared(file, args, draws)) && ServicesPaired(Prepared(file, args, draws))
  {
    ScriptIsWellFormed(args, draws);
    SecretsAreSteps(draws);
    var sections := Sections(args, draws, PROXY_HEADERS, PROXY_WHITELIST);
    SectionsOfSecrets(sections, args, draws);
    OtlpPair(Created(file), Script(args, draws), sections, draws);
    ServicesPair(Created(file), Script(args, draws), sections, draws);
  }

  lemma SectionsOfSecrets(sections: seq<seq<Step>>, args: Args, draws: Draws)
    requires sections == Sections(args, draws, PROXY_HEADERS, PROXY_WHITELIST)
    requires forall i | 0 <= i < 5 :: Undisturbed(args, SecretKeys()[i])
    ensures |sections| == 8 && sections[3] == Auth(draws) && sections[4] == Services(draws) && Spared(sections, 3, 6)
    ensures Spared(sections, 4, 0) && Spared(sections, 4, 1) && Spared(sections, 4, 3) && Spared(sections, 4, 4)
  {
    SecretsAreSteps(draws);
    SecretSpared(sections, args, draws, 3, 6);
    SecretSpared(sections, args, draws, 4, 0);
    SecretSpared(sections, args, draws, 4, 1);
    SecretSpared(sections, args, draws, 4, 3);
    SecretSpared(sections, args, draws, 4, 4);
  }

  /** In particular for arguments that stay on their lines. */
  lemma UnbrokenSecretsArePaired(file: File, args: Args, draws: Draws)
    requires GoodDraws(draws) && Unbroken(args)
    ensures OtlpPaired(Prepared(file, args, draws)) && ServicesPaired(Prepared(file, args, draws))
  {
    forall i | 0 <= i < 5 ensures Undisturbed(args, SecretKeys()[i]) { UnbrokenIsUndisturbed(args, SecretKeys()[i]); }
    SecretsArePaired(file, args, draws);
  }

  /** Arguments that stay on their lines disturb nothing. */
  lemma UnbrokenIsUndisturbed(args: Args, keys: seq<string>)
    requires Unbroken(args)
    ensures Undisturbed(args, keys)
  {
    AuthApiUrlOneLine(args.apiHost);
  }
}
