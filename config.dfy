/** Process settings: the `Settings` class attributes read from the
    environment, and `get_settings()`, which derives the Azure AD URLs once
    and memoises the result. */
module Config {
  import opened Outcome
  import Text

  /** The environment as `os.getenv` sees it once `.env` has been loaded. */
  type Env = map<string, string>

  /** `os.getenv(name, default)`: a variable that is set, even to "", wins. */
  function GetEnv(env: Env, name: string, default: string): string
  {
    if name in env then env[name] else default
  }

  const DefaultTenantId: string := "3f9e6f5d-98bf-4cd1-bbc5-e4dc985c0a77"
  const DefaultAudience: string := "38a25199-49ed-4d7b-8346-41ec11a9fa6f"
  const Authority: string := "https://login.microsoftonline.com/"

  datatype Settings = Settings(
    authMode: string,
    apiKeyHeader: string,
    apiKeyValue: string,
    tenantId: string,
    audience: string,
    issuer: string,
    openIdConfig: Option<string>)

  /** The class attributes of `Settings`, evaluated from the environment. */
  function ClassDefaults(env: Env): Settings
  {
    Settings(
      Text.Upper(GetEnv(env, "AUTH_MODE", "API_KEY")),
      GetEnv(env, "API_KEY_HEADER", "x-api-key"),
      GetEnv(env, "API_KEY_VALUE", "dev-secret"),
      GetEnv(env, "AAD_TENANT_ID", DefaultTenantId),
      GetEnv(env, "AAD_AUDIENCE", DefaultAudience),
      GetEnv(env, "AAD_ISSUER", ""),
      None)
  }

  function IssuerFor(tenant: string): string
  {
    Authority + tenant + "/v2.0"
  }

  function OpenIdConfigFor(tenant: string): string
  {
    Authority + tenant + "/v2.0/.well-known/openid-configuration"
  }

  /** The settings `get_settings()` hands out: in AAD mode the issuer falls
      back to the tenant's v2.0 authority and the discovery URL is built from
      the tenant; otherwise the class attributes are left as they are. */
  function Derive(env: Env): Settings
  {
    var s := ClassDefaults(env);
    if s.authMode == "AAD" then
      s.(issuer := if s.issuer != "" then s.issuer else IssuerFor(s.tenantId),
         openIdConfig := Some(OpenIdConfigFor(s.tenantId)))
    else s
  }

  /** `get_settings` under `lru_cache`: the first call builds and stores the
      settings, every later call returns the stored value. `derivations`
      counts how often the body ran. */
  class SettingsProvider {
    const env: Env
    var memo: Option<Settings>
    ghost var derivations: nat

    ghost predicate Valid()
      reads this
    {
      match memo
      case None => derivations == 0
      case Some(s) => derivations == 1 && s == Derive(env)
    }

    constructor (env: Env)
      ensures Valid() && this.env == env && memo == None
    {
      this.env := env;
      memo := None;
      derivations := 0;
    }

    method GetSettings() returns (s: Settings)
      requires Valid()
      modifies this
      ensures Valid()
      ensures s == Derive(env)
      ensures memo == Some(s) && derivations == 1
      ensures old(memo).Some? ==> s == old(memo).value && unchanged(this)
    {
      if memo.Some? {
        return memo.value;
      }
      s := ClassDefaults(env);
      if s.authMode == "AAD" {
        var tenant := s.tenantId;
        s := s.(issuer := if s.issuer != "" then s.issuer else IssuerFor(tenant));
        s := s.(openIdConfig := Some(OpenIdConfigFor(tenant)));
      }
      memo := Some(s);
      derivations := derivations + 1;
    }
  }

  /** Unset variables take their documented defaults, in every mode. */
  lemma Defaults(env: Env)
    ensures "AUTH_MODE" !in env ==> Derive(env).authMode == "API_KEY"
    ensures "API_KEY_HEADER" !in env ==> Derive(env).apiKeyHeader == "x-api-key"
    ensures "API_KEY_VALUE" !in env ==> Derive(env).apiKeyValue == "dev-secret"
    ensures "AAD_TENANT_ID" !in env ==> Derive(env).tenantId == DefaultTenantId
    ensures "AAD_AUDIENCE" !in env ==> Derive(env).audience == DefaultAudience
  {
    if "AUTH_MODE" !in env {
      ApiKeyModeIff(env);
    }
  }

  /** The stored mode is already upper-case. */
  lemma ModeIsUpperCase(env: Env)
    ensures Text.Upper(Derive(env).authMode) == Derive(env).authMode
  {
    Text.UpperIdempotent(GetEnv(env, "AUTH_MODE", "API_KEY"));
  }

  /** The stored mode is the upper-case form of the raw variable. */
  lemma ModeIsUpperOfRaw(env: Env)
    ensures Derive(env).authMode == Text.Upper(GetEnv(env, "AUTH_MODE", "API_KEY"))
  {
  }

  lemma AadLetters()
    ensures forall i :: 0 <= i < 3 ==> Text.AsciiLower("AAD"[i]) == "aad"[i] && "AAD"[i] != 'I'
  {
  }

  lemma ApiKeyLetters()
    ensures forall i :: 0 <= i < 7 ==> Text.AsciiLower("API_KEY"[i]) == "api_key"[i] && ("API_KEY"[i] == 'I' <==> i == 2)
  {
  }

  lemma UpperIsAad(raw: string)
    ensures Text.Upper(raw) == "AAD" <==>
      |raw| == 3 && forall i :: 0 <= i < 3 ==> raw[i] == "AAD"[i] || raw[i] == "aad"[i]
  {
    Text.UpperEqualsAsciiIff(raw, "AAD");
    AadLetters();
  }

  lemma UpperIsApiKey(raw: string)
    ensures Text.Upper(raw) == "API_KEY" <==>
      |raw| == 7 && forall i :: 0 <= i < 7 ==> raw[i] == "API_KEY"[i] || raw[i] == "api_key"[i] || (i == 2 && raw[i] == '\U{131}')
  {
    Text.UpperEqualsAsciiIff(raw, "API_KEY");
    ApiKeyLetters();
  }

  /** AAD mode is selected exactly by a three-letter `AUTH_MODE` spelling
      "aad" in any mix of cases. */
  lemma AadModeIff(env: Env)
    ensures Derive(env).authMode == "AAD" <==>
      var raw := GetEnv(env, "AUTH_MODE", "API_KEY");
      |raw| == 3 && forall i :: 0 <= i < 3 ==> raw[i] == "AAD"[i] || raw[i] == "aad"[i]
  {
    ModeIsUpperOfRaw(env);
    UpperIsAad(GetEnv(env, "AUTH_MODE", "API_KEY"));
  }

  /** API-key mode is selected by an unset `AUTH_MODE` or by "api_key" in any
      mix of cases, where the dotless i (U+0131) also counts as an i. */
  lemma ApiKeyModeIff(env: Env)
    ensures Derive(env).authMode == "API_KEY" <==>
      var raw := GetEnv(env, "AUTH_MODE", "API_KEY");
      |raw| == 7 && forall i :: 0 <= i < 7 ==> raw[i] == "API_KEY"[i] || raw[i] == "api_key"[i] || (i == 2 && raw[i] == '\U{131}')
  {
    ModeIsUpperOfRaw(env);
    UpperIsApiKey(GetEnv(env, "AUTH_MODE", "API_KEY"));
  }

  /** In AAD mode the issuer is the override when one is set and the tenant's
      v2.0 authority otherwise, so it is never empty; the discovery URL is
      always the tenant's, whatever the override says. */
  lemma AadDerivation(env: Env)
    requires Derive(env).authMode == "AAD"
    ensures var override := GetEnv(env, "AAD_ISSUER", "");
      Derive(env).issuer == (if override != "" then override else IssuerFor(Derive(env).tenantId))
    ensures Derive(env).issuer != ""
    ensures Derive(env).openIdConfig == Some(OpenIdConfigFor(GetEnv(env, "AAD_TENANT_ID", DefaultTenantId)))
    ensures Derive(env).openIdConfig.value != ""
  {
  }

  /** The issuer override never reaches the discovery URL. */
  lemma OpenIdConfigIgnoresIssuer(env1: Env, env2: Env)
    requires GetEnv(env1, "AUTH_MODE", "API_KEY") == GetEnv(env2, "AUTH_MODE", "API_KEY")
    requires GetEnv(env1, "AAD_TENANT_ID", DefaultTenantId) == GetEnv(env2, "AAD_TENANT_ID", DefaultTenantId)
    ensures Derive(env1).openIdConfig == Derive(env2).openIdConfig
  {
  }

  /** Outside AAD mode nothing is derived. */
  lemma NonAadKeepsRawValues(env: Env)
    requires Derive(env).authMode != "AAD"
    ensures Derive(env).openIdConfig == None
    ensures Derive(env).issuer == GetEnv(env, "AAD_ISSUER", "")
    ensures Derive(env) == ClassDefaults(env)
  {
  }
}
