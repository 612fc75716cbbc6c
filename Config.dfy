/** The configuration loader of lib/config.ts: `validateEnv`, which scans a
    fixed table of required variables and collects the missing or placeholder
    ones in table order, throwing only in production; and `env`, the settings
    object in which every variable falls back to a default. The process
    environment is a parameter; console output is returned as lines. */
module Config {
  import opened JsBuiltins

  /** `process.env`: variable name to value. */
  type Env = map<string, string>

  datatype Requirement = Requirement(key: string, description: string)

  /** `requiredEnvVars`, in declaration order. */
  const Required: seq<Requirement> := [
    Requirement("NEXT_PUBLIC_SUPABASE_URL", "Supabase project URL"),
    Requirement("NEXT_PUBLIC_SUPABASE_ANON_KEY", "Supabase anonymous key"),
    Requirement("SUPABASE_SERVICE_ROLE_KEY", "Supabase service role key"),
    Requirement("JWT_SECRET", "JWT signing secret"),
    Requirement("OPENAI_API_KEY", "OpenAI API key"),
    Requirement("NEXT_PUBLIC_STRIPE_PUBLISHABLE_KEY", "Stripe publishable key"),
    Requirement("STRIPE_SECRET_KEY", "Stripe secret key"),
    Requirement("GOOGLE_CLIENT_ID", "Google OAuth client ID"),
    Requirement("GOOGLE_CLIENT_SECRET", "Google OAuth client secret"),
    Requirement("GOOGLE_REDIRECT_URI", "Google OAuth redirect URI")]

  /** The value `validateEnv` treats as an unedited placeholder. */
  function Placeholder(key: string): string {
    "your-" + ToLowerAscii(key)
  }

  /** A variable is missing when it is unset, empty, or still the placeholder. */
  predicate IsMissing(env: Env, key: string) {
    !Truthy(Lookup(env, key)) || env[key] == Placeholder(key)
  }

  /** The text pushed for a missing variable. */
  function Entry(r: Requirement): string {
    r.key + ": " + r.description
  }

  /** The entries of the missing variables of `reqs`, in the order of `reqs`. */
  function MissingEntries(env: Env, reqs: seq<Requirement>): seq<string> {
    if reqs == [] then []
    else
      var last := reqs[|reqs| - 1];
      MissingEntries(env, reqs[..|reqs| - 1]) + (if IsMissing(env, last.key) then [Entry(last)] else [])
  }

  datatype Validation = Returned | Thrown(message: string)

  const WarningHeader := "\U{26A0}\U{FE0F}  Missing or unconfigured environment variables:"

  /** The lines `validateEnv` writes with console.warn. */
  function WarningLines(missing: seq<string>): seq<string> {
    if missing == [] then []
    else [WarningHeader] + seq(|missing|, k requires 0 <= k < |missing| => "  - " + missing[k])
  }

  /** What `validateEnv` does with a given environment. */
  function ValidationOutcome(env: Env): Validation {
    var missing := MissingEntries(env, Required);
    if |missing| > 0 && Lookup(env, "NODE_ENV") == Some("production") then
      Thrown("Missing required environment variables: " + Join(missing, ", "))
    else Returned
  }

  /** `validateEnv()`: returns normally or throws, and reports the warnings it logs. */
  method ValidateEnv(env: Env) returns (outcome: Validation, warnings: seq<string>)
    ensures outcome == ValidationOutcome(env)
    ensures warnings == WarningLines(MissingEntries(env, Required))
  {
    var missing: seq<string> := [];
    for i := 0 to |Required|
      invariant missing == MissingEntries(env, Required[..i])
    {
      var r := Required[i];
      var value := Lookup(env, r.key);
      if !Truthy(value) || value.value == "your-" + ToLowerAscii(r.key) {
        missing := missing + [r.key + ": " + r.description];
      }
      assert Required[..i + 1][..i] == Required[..i];
    }
    assert Required[..|Required|] == Required;
    outcome := Returned;
    warnings := [];
    if |missing| > 0 {
      warnings := [WarningHeader];
      for j := 0 to |missing|
        invariant warnings == [WarningHeader] + seq(j, k requires 0 <= k < j => "  - " + missing[k])
      {
        warnings := warnings + ["  - " + missing[j]];
      }
      if Lookup(env, "NODE_ENV") == Some("production") {
        outcome := Thrown("Missing required environment variables: " + Join(missing, ", "));
      }
    }
  }

  /** An entry is listed iff it belongs to a requirement whose variable is missing. */
  lemma {:induction false} MissingEntriesMembership(env: Env, reqs: seq<Requirement>, x: string)
    ensures x in MissingEntries(env, reqs)
        <==> exists i :: 0 <= i < |reqs| && IsMissing(env, reqs[i].key) && x == Entry(reqs[i])
  {
    if reqs != [] {
      var init := reqs[..|reqs| - 1];
      MissingEntriesMembership(env, init, x);
      if x in MissingEntries(env, reqs) && x !in MissingEntries(env, init) {
        assert IsMissing(env, reqs[|reqs| - 1].key) && x == Entry(reqs[|reqs| - 1]);
      }
      if exists i :: 0 <= i < |reqs| && IsMissing(env, reqs[i].key) && x == Entry(reqs[i]) {
        var i :| 0 <= i < |reqs| && IsMissing(env, reqs[i].key) && x == Entry(reqs[i]);
        if i < |reqs| - 1 {
          assert init[i] == reqs[i];
        }
      }
    }
  }

  /** Nothing is listed iff no variable is missing. */
  lemma {:induction false} NoneMissingIffEmpty(env: Env, reqs: seq<Requirement>)
    ensures MissingEntries(env, reqs) == [] <==> forall i :: 0 <= i < |reqs| ==> !IsMissing(env, reqs[i].key)
  {
    if reqs != [] {
      var init := reqs[..|reqs| - 1];
      NoneMissingIffEmpty(env, init);
      if forall i :: 0 <= i < |init| ==> !IsMissing(env, init[i].key) {
        assert forall i :: 0 <= i < |init| ==> init[i] == reqs[i];
      }
    }
  }

  /** In an empty environment every requirement is listed, in table order. */
  lemma {:induction false} EmptyEnvListsAllInOrder(reqs: seq<Requirement>)
    ensures MissingEntries(map[], reqs) == seq(|reqs|, i requires 0 <= i < |reqs| => Entry(reqs[i]))
  {
    if reqs != [] {
      EmptyEnvListsAllInOrder(reqs[..|reqs| - 1]);
    }
  }

  /** Setting a variable that no requirement names changes nothing in the list. */
  lemma {:induction false} UnrequiredKeyIgnored(env: Env, reqs: seq<Requirement>, k: string, v: string)
    requires forall i :: 0 <= i < |reqs| ==> reqs[i].key != k
    ensures MissingEntries(env[k := v], reqs) == MissingEntries(env, reqs)
  {
    if reqs != [] {
      UnrequiredKeyIgnored(env, reqs[..|reqs| - 1], k, v);
      assert IsMissing(env[k := v], reqs[|reqs| - 1].key) == IsMissing(env, reqs[|reqs| - 1].key);
    }
  }

  /** The variables of `env` that `validateEnv` never checks. */
  const Unchecked: seq<string> := ["SESSION_EXPIRES_IN", "STRIPE_WEBHOOK_SECRET", "NEXT_PUBLIC_API_URL", "API_URL"]

  /** SESSION_EXPIRES_IN, STRIPE_WEBHOOK_SECRET, NEXT_PUBLIC_API_URL and API_URL
      have no effect on validation, whatever their value. */
  lemma UncheckedVariablesIgnored(env: Env, k: string, v: string)
    requires k in Unchecked
    ensures ValidationOutcome(env[k := v]) == ValidationOutcome(env)
    ensures MissingEntries(env[k := v], Required) == MissingEntries(env, Required)
  {
    UnrequiredKeyIgnored(env, Required, k, v);
  }

  /** `validateEnv` throws iff some required variable is missing and NODE_ENV is
      'production'; the message lists every missing entry, joined by ', '. */
  lemma ThrowsIffMissingInProduction(env: Env)
    ensures ValidationOutcome(env).Thrown?
        <==> (exists i :: 0 <= i < |Required| && IsMissing(env, Required[i].key))
             && "NODE_ENV" in env && env["NODE_ENV"] == "production"
    ensures ValidationOutcome(env).Thrown? ==>
      ValidationOutcome(env).message == "Missing required environment variables: " + Join(MissingEntries(env, Required), ", ")
  {
    NoneMissingIffEmpty(env, Required);
  }

  datatype SupabaseSettings = SupabaseSettings(url: string, anonKey: string, serviceKey: string)
  datatype JwtSettings = JwtSettings(secret: string, expiresIn: string)
  datatype OpenAiSettings = OpenAiSettings(apiKey: string)
  datatype StripeSettings = StripeSettings(publishableKey: string, secretKey: string, webhookSecret: string)
  datatype GoogleSettings = GoogleSettings(clientId: string, clientSecret: string, redirectUri: string)
  datatype ApiSettings = ApiSettings(url: string, internalUrl: string)

  /** The `env` object. */
  datatype Settings = Settings(
    supabase: SupabaseSettings,
    jwt: JwtSettings,
    openai: OpenAiSettings,
    stripe: StripeSettings,
    google: GoogleSettings,
    api: ApiSettings)

  const LocalApi := "http://localhost:5000"

  /** `process.env.KEY || default`. */
  function Var(env: Env, key: string, default: string): string {
    OrElse(Lookup(env, key), default)
  }

  /** The `env` object built from a process environment. */
  function LoadSettings(env: Env): (s: Settings)
    ensures s.jwt.expiresIn != "" && s.api.url != "" && s.api.internalUrl != ""
  {
    Settings(
      SupabaseSettings(Var(env, "NEXT_PUBLIC_SUPABASE_URL", ""), Var(env, "NEXT_PUBLIC_SUPABASE_ANON_KEY", ""),
                       Var(env, "SUPABASE_SERVICE_ROLE_KEY", "")),
      JwtSettings(Var(env, "JWT_SECRET", ""), Var(env, "SESSION_EXPIRES_IN", "7d")),
      OpenAiSettings(Var(env, "OPENAI_API_KEY", "")),
      StripeSettings(Var(env, "NEXT_PUBLIC_STRIPE_PUBLISHABLE_KEY", ""), Var(env, "STRIPE_SECRET_KEY", ""),
                     Var(env, "STRIPE_WEBHOOK_SECRET", "")),
      GoogleSettings(Var(env, "GOOGLE_CLIENT_ID", ""), Var(env, "GOOGLE_CLIENT_SECRET", ""),
                     Var(env, "GOOGLE_REDIRECT_URI", "")),
      ApiSettings(Var(env, "NEXT_PUBLIC_API_URL", LocalApi), Var(env, "API_URL", LocalApi)))
  }

  /** With no variables set, every setting is '' except the session lifetime
      ('7d') and the two API URLs ('http://localhost:5000'). */
  lemma DefaultSettings()
    ensures LoadSettings(map[]) == Settings(
      SupabaseSettings("", "", ""), JwtSettings("", "7d"), OpenAiSettings(""),
      StripeSettings("", "", ""), GoogleSettings("", "", ""),
      ApiSettings("http://localhost:5000", "http://localhost:5000"))
  {
  }

  /** The number of fields of `env`. */
  const SettingCount := 14

  /** The variable the i-th field of `env` reads and its default, in declaration order. */
  function SettingSource(i: nat): (string, string)
    requires i < SettingCount
  {
    match i
    case 0 => ("NEXT_PUBLIC_SUPABASE_URL", "")
    case 1 => ("NEXT_PUBLIC_SUPABASE_ANON_KEY", "")
    case 2 => ("SUPABASE_SERVICE_ROLE_KEY", "")
    case 3 => ("JWT_SECRET", "")
    case 4 => ("SESSION_EXPIRES_IN", "7d")
    case 5 => ("OPENAI_API_KEY", "")
    case 6 => ("NEXT_PUBLIC_STRIPE_PUBLISHABLE_KEY", "")
    case 7 => ("STRIPE_SECRET_KEY", "")
    case 8 => ("STRIPE_WEBHOOK_SECRET", "")
    case 9 => ("GOOGLE_CLIENT_ID", "")
    case 10 => ("GOOGLE_CLIENT_SECRET", "")
    case 11 => ("GOOGLE_REDIRECT_URI", "")
    case 12 => ("NEXT_PUBLIC_API_URL", LocalApi)
    case _ => ("API_URL", LocalApi)
  }

  /** The i-th field of the settings, in declaration order. */
  function FieldAt(s: Settings, i: nat): string
    requires i < SettingCount
  {
    match i
    case 0 => s.supabase.url
    case 1 => s.supabase.anonKey
    case 2 => s.supabase.serviceKey
    case 3 => s.jwt.secret
    case 4 => s.jwt.expiresIn
    case 5 => s.openai.apiKey
    case 6 => s.stripe.publishableKey
    case 7 => s.stripe.secretKey
    case 8 => s.stripe.webhookSecret
    case 9 => s.google.clientId
    case 10 => s.google.clientSecret
    case 11 => s.google.redirectUri
    case 12 => s.api.url
    case _ => s.api.internalUrl
  }

  /** The field at `i` reads its variable with `||` and its default. */
  lemma FieldReadsItsVariable(env: Env, i: nat)
    requires i < SettingCount
    ensures FieldAt(LoadSettings(env), i) == Var(env, SettingSource(i).0, SettingSource(i).1)
  {
    match i
    case 0 => case 1 => case 2 => case 3 => case 4 => case 5 => case 6 =>
    case 7 => case 8 => case 9 => case 10 => case 11 => case 12 => case 13 =>
  }

  /** Every field is its variable when that is set and non-empty, placeholder
      text included (only `validateEnv` looks for placeholders), and its
      default otherwise. */
  lemma SettingsTakeVariablesVerbatim(env: Env)
    ensures forall i :: 0 <= i < SettingCount ==>
      FieldAt(LoadSettings(env), i)
        == (if SettingSource(i).0 in env && env[SettingSource(i).0] != "" then env[SettingSource(i).0]
            else SettingSource(i).1)
  {
    forall i | 0 <= i < SettingCount
      ensures FieldAt(LoadSettings(env), i)
        == (if SettingSource(i).0 in env && env[SettingSource(i).0] != "" then env[SettingSource(i).0]
            else SettingSource(i).1)
    {
      FieldReadsItsVariable(env, i);
    }
  }

  /** When `validateEnv` passes in production, every setting backed by a
      required variable holds that variable's non-empty, non-placeholder value. */
  lemma ProductionSettingsPresent(env: Env)
    requires "NODE_ENV" in env && env["NODE_ENV"] == "production"
    requires ValidationOutcome(env) == Returned
    ensures forall i :: 0 <= i < |Required| ==>
      Required[i].key in env && env[Required[i].key] != "" && env[Required[i].key] != Placeholder(Required[i].key)
    ensures var s := LoadSettings(env);
      && s.supabase.url != "" && Lookup(env, "NEXT_PUBLIC_SUPABASE_URL") == Some(s.supabase.url)
      && s.supabase.anonKey != "" && Lookup(env, "NEXT_PUBLIC_SUPABASE_ANON_KEY") == Some(s.supabase.anonKey)
      && s.supabase.serviceKey != "" && Lookup(env, "SUPABASE_SERVICE_ROLE_KEY") == Some(s.supabase.serviceKey)
      && s.jwt.secret != "" && Lookup(env, "JWT_SECRET") == Some(s.jwt.secret)
      && s.openai.apiKey != "" && Lookup(env, "OPENAI_API_KEY") == Some(s.openai.apiKey)
      && s.stripe.publishableKey != "" && Lookup(env, "NEXT_PUBLIC_STRIPE_PUBLISHABLE_KEY") == Some(s.stripe.publishableKey)
      && s.stripe.secretKey != "" && Lookup(env, "STRIPE_SECRET_KEY") == Some(s.stripe.secretKey)
      && s.google.clientId != "" && Lookup(env, "GOOGLE_CLIENT_ID") == Some(s.google.clientId)
      && s.google.clientSecret != "" && Lookup(env, "GOOGLE_CLIENT_SECRET") == Some(s.google.clientSecret)
      && s.google.redirectUri != "" && Lookup(env, "GOOGLE_REDIRECT_URI") == Some(s.google.redirectUri)
  {
    NoneMissingIffEmpty(env, Required);
    assert !IsMissing(env, Required[0].key) && !IsMissing(env, Required[1].key) && !IsMissing(env, Required[2].key);
    assert !IsMissing(env, Required[3].key) && !IsMissing(env, Required[4].key);
    assert !IsMissing(env, Required[5].key) && !IsMissing(env, Required[6].key);
    assert !IsMissing(env, Required[7].key) && !IsMissing(env, Required[8].key) && !IsMissing(env, Required[9].key);
  }
}
