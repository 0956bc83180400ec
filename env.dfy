/** Validation of the process environment (src/lib/env.ts): a schema of
    per-variable checks with defaults, followed by a cross-field refinement that
    demands the variables the selected deployment mode needs. */
module Env {
  import opened Wrappers

  /** `process.env`: every variable that is set has a string value. */
  type RawEnv = map<string, string>

  const AzureCloudKey := "AZURE_CLOUD"
  const AzureClientIdKey := "AZURE_CLIENT_ID"
  const AzurePgHostKey := "AZURE_PG_HOST"
  const AzurePgPortKey := "AZURE_PG_PORT"
  const AzurePgDatabaseKey := "AZURE_PG_DATABASE"
  const AuthSecretKey := "BETTER_AUTH_SECRET"
  const AuthUrlKey := "BETTER_AUTH_URL"
  const AuthTelemetryKey := "BETTER_AUTH_TELEMETRY"
  const GoogleClientIdKey := "GOOGLE_CLIENT_ID"
  const GoogleClientSecretKey := "GOOGLE_CLIENT_SECRET"
  const DiscordClientIdKey := "DISCORD_CLIENT_ID"
  const DiscordClientSecretKey := "DISCORD_CLIENT_SECRET"
  const DatabaseUrlKey := "DATABASE_URL"
  const RunMigrationsKey := "RUN_MIGRATIONS"
  const OriginsKey := "ORIGINS"
  const CookieDomainKey := "COOKIE_DOMAIN"
  const NodeEnvKey := "NODE_ENV"
  const EmailPasswordAuthKey := "EMAIL_PASSWORD_AUTH"
  const LinkAccountsKey := "LINK_ACCOUNTS"
  const TokenHoursKey := "TOKEN_EXPIRATION_HOURS"

  /** The minimum length of the auth secret and the message given when it is not met. */
  const MinSecretLength := 32
  const SecretMessage := "BETTER_AUTH_SECRET is required and must be at least 32 characters long"
  const DatabaseUrlMessage := "DATABASE_URL must be a valid URL"
  const DefaultTokenHours := 4
  /** JavaScript's Number.MAX_SAFE_INTEGER, the bound of zod's integer check. */
  const MaxSafeInteger := 9007199254740991

  /** What the model takes as given from JavaScript and zod: whether a string is
      a URL, and `Number(s)` (None stands for NaN and the infinities). */
  datatype Coercions = Coercions(isUrl: string -> bool, toNumber: string -> Option<real>)

  datatype NodeEnv = Development | Production

  /** The kind of an issue: a failed base check of one variable, or a custom
      issue of the refinement. */
  datatype IssueCode = InvalidType | NotInteger | TooSmall | TooBig | InvalidFormat | InvalidValue | Custom

  /** One validation issue: the variable it is about, its kind, and its message
      when the source gives one (None: the library's default message). */
  datatype Issue = Issue(path: string, code: IssueCode, message: Option<string>)

  /** The outcome of one variable's base check. */
  datatype Field<T> = Parsed(value: T) | Rejected(issues: seq<Issue>)

  /** The validated environment, one field per schema entry. */
  datatype ParsedEnv = ParsedEnv(
    azureCloud: bool,
    azureClientId: Option<string>,
    azurePgHost: Option<string>,
    azurePgPort: Option<int>,
    azurePgDatabase: Option<string>,
    betterAuthSecret: string,
    betterAuthUrl: string,
    betterAuthTelemetry: string,
    googleClientId: Option<string>,
    googleClientSecret: Option<string>,
    discordClientId: Option<string>,
    discordClientSecret: Option<string>,
    databaseUrl: Option<string>,
    runMigrations: bool,
    origins: string,
    cookieDomain: string,
    nodeEnv: NodeEnv,
    emailPasswordAuth: string,
    linkAccounts: string,
    tokenExpirationHours: int)

  function Lookup(raw: RawEnv, key: string): (v: Option<string>)
    ensures v.Some? <==> key in raw
    ensures key in raw ==> v.value == raw[key]
  {
    if key in raw then Some(raw[key]) else None
  }

  /** `.default(d)` on a string: an unset variable takes the default. */
  function OrDefault(v: Option<string>, d: string): string
  {
    if v.Some? then v.value else d
  }

  /** JavaScript truthiness of a `string | undefined`: set and non-empty. */
  predicate Truthy(v: Option<string>)
  {
    v.Some? && v.value != ""
  }

  /** The boolean flags AZURE_CLOUD and RUN_MIGRATIONS: default "false",
      then true exactly for the string "true". */
  function ParseFlag(v: Option<string>): (b: bool)
    ensures b <==> v == Some("true")
    ensures v.None? ==> !b
  {
    OrDefault(v, "false") == "true"
  }

  predicate IsSafeInteger(r: real)
  {
    r.Floor as real == r && -MaxSafeInteger <= r.Floor <= MaxSafeInteger
  }

  /** A coerced number that passes both `.int()` and `.positive()`. */
  predicate PositiveSafeInteger(n: Option<real>)
  {
    n.Some? && IsSafeInteger(n.value) && n.value > 0.0
  }

  /** The issues of `z.coerce.number().int().positive()` on a set variable: a
      NaN stops at the type check and a fraction at the integer check; an
      integer outside the safe range reports that range and still meets the
      positivity check. */
  function PositiveIntIssues(key: string, n: Option<real>): (issues: seq<Issue>)
    ensures issues == [] <==> PositiveSafeInteger(n)
    ensures forall i :: 0 <= i < |issues| ==> issues[i].path == key
    ensures n.None? ==> issues == [Issue(key, InvalidType, None)]
    ensures n.Some? && n.value.Floor as real != n.value ==> issues == [Issue(key, NotInteger, None)]
    ensures n.Some? && IsSafeInteger(n.value) ==>
      issues == if n.value > 0.0 then [] else [Issue(key, TooSmall, None)]
    ensures n.Some? && n.value.Floor as real == n.value && n.value.Floor > MaxSafeInteger ==>
      issues == [Issue(key, TooBig, None)]
    ensures n.Some? && n.value.Floor as real == n.value && n.value.Floor < -MaxSafeInteger ==>
      issues == [Issue(key, TooSmall, None), Issue(key, TooSmall, None)]
  {
    if n.None? then [Issue(key, InvalidType, None)]
    else if n.value.Floor as real != n.value then [Issue(key, NotInteger, None)]
    else
      (if n.value.Floor > MaxSafeInteger then [Issue(key, TooBig, None)]
       else if n.value.Floor < -MaxSafeInteger then [Issue(key, TooSmall, None)]
       else [])
      + (if n.value > 0.0 then [] else [Issue(key, TooSmall, None)])
  }

  function CoercePositiveInt(key: string, s: string, c: Coercions): (f: Field<int>)
    ensures f.Parsed? <==> PositiveSafeInteger(c.toNumber(s))
    ensures f.Parsed? ==> f.value >= 1 && c.toNumber(s) == Some(f.value as real)
    ensures f.Rejected? ==> |f.issues| > 0
  {
    var issues := PositiveIntIssues(key, c.toNumber(s));
    if issues == [] then Parsed(c.toNumber(s).value.Floor) else Rejected(issues)
  }

  /** AZURE_PG_PORT: optional, and a positive safe integer when set. */
  function ParsePgPort(raw: RawEnv, c: Coercions): (f: Field<Option<int>>)
    ensures f.Parsed? <==> (AzurePgPortKey in raw ==> PositiveSafeInteger(c.toNumber(raw[AzurePgPortKey])))
    ensures f.Parsed? && AzurePgPortKey !in raw ==> f.value.None?
    ensures f.Parsed? && AzurePgPortKey in raw ==> f.value.Some? && f.value.value >= 1
    ensures f.Parsed? && AzurePgPortKey in raw ==> c.toNumber(raw[AzurePgPortKey]) == Some(f.value.value as real)
    ensures f.Rejected? ==> |f.issues| > 0
  {
    if AzurePgPortKey !in raw then Parsed(None)
    else
      match CoercePositiveInt(AzurePgPortKey, raw[AzurePgPortKey], c)
      case Parsed(n) => Parsed(Some(n))
      case Rejected(issues) => Rejected(issues)
  }

  /** TOKEN_EXPIRATION_HOURS: 4 when unset, otherwise a positive safe integer. */
  function ParseTokenHours(raw: RawEnv, c: Coercions): (f: Field<int>)
    ensures f.Parsed? <==> (TokenHoursKey in raw ==> PositiveSafeInteger(c.toNumber(raw[TokenHoursKey])))
    ensures f.Parsed? && TokenHoursKey !in raw ==> f.value == DefaultTokenHours
    ensures f.Parsed? ==> f.value >= 1
    ensures f.Parsed? && TokenHoursKey in raw ==> c.toNumber(raw[TokenHoursKey]) == Some(f.value as real)
    ensures f.Rejected? ==> |f.issues| > 0
  {
    if TokenHoursKey !in raw then Parsed(DefaultTokenHours)
    else CoercePositiveInt(TokenHoursKey, raw[TokenHoursKey], c)
  }

  /** BETTER_AUTH_SECRET: required, at least 32 characters. */
  function ParseSecret(raw: RawEnv): (f: Field<string>)
    ensures f.Parsed? <==> AuthSecretKey in raw && |raw[AuthSecretKey]| >= MinSecretLength
    ensures f.Parsed? ==> f.value == raw[AuthSecretKey]
    ensures AuthSecretKey in raw && f.Rejected? ==> f.issues == [Issue(AuthSecretKey, TooSmall, Some(SecretMessage))]
    ensures f.Rejected? ==> |f.issues| > 0
  {
    if AuthSecretKey !in raw then Rejected([Issue(AuthSecretKey, InvalidType, None)])
    else if |raw[AuthSecretKey]| < MinSecretLength then Rejected([Issue(AuthSecretKey, TooSmall, Some(SecretMessage))])
    else Parsed(raw[AuthSecretKey])
  }

  /** BETTER_AUTH_URL: "http://localhost:3000" when unset, otherwise a URL. */
  function ParseAuthUrl(raw: RawEnv, c: Coercions): (f: Field<string>)
    ensures f.Parsed? <==> (AuthUrlKey in raw ==> c.isUrl(raw[AuthUrlKey]))
    ensures f.Parsed? ==> f.value == OrDefault(Lookup(raw, AuthUrlKey), "http://localhost:3000")
    ensures f.Rejected? ==> |f.issues| > 0
  {
    if AuthUrlKey !in raw then Parsed("http://localhost:3000")
    else if c.isUrl(raw[AuthUrlKey]) then Parsed(raw[AuthUrlKey])
    else Rejected([Issue(AuthUrlKey, InvalidFormat, None)])
  }

  /** DATABASE_URL: optional, and a URL when set. */
  function ParseDatabaseUrl(raw: RawEnv, c: Coercions): (f: Field<Option<string>>)
    ensures f.Parsed? <==> (DatabaseUrlKey in raw ==> c.isUrl(raw[DatabaseUrlKey]))
    ensures f.Parsed? ==> f.value == Lookup(raw, DatabaseUrlKey)
    ensures f.Rejected? ==> f.issues == [Issue(DatabaseUrlKey, InvalidFormat, Some(DatabaseUrlMessage))]
  {
    if DatabaseUrlKey !in raw then Parsed(None)
    else if c.isUrl(raw[DatabaseUrlKey]) then Parsed(Some(raw[DatabaseUrlKey]))
    else Rejected([Issue(DatabaseUrlKey, InvalidFormat, Some(DatabaseUrlMessage))])
  }

  /** NODE_ENV: "development" when unset, otherwise one of the two names. */
  function ParseNodeEnv(raw: RawEnv): (f: Field<NodeEnv>)
    ensures f.Parsed? <==> (NodeEnvKey in raw ==> raw[NodeEnvKey] == "development" || raw[NodeEnvKey] == "production")
    ensures f.Parsed? ==> (f.value == Production <==> Lookup(raw, NodeEnvKey) == Some("production"))
    ensures f.Rejected? ==> |f.issues| > 0
  {
    if NodeEnvKey !in raw then Parsed(Development)
    else if raw[NodeEnvKey] == "development" then Parsed(Development)
    else if raw[NodeEnvKey] == "production" then Parsed(Production)
    else Rejected([Issue(NodeEnvKey, InvalidValue, None)])
  }

  function IssuesOf<T>(f: Field<T>): seq<Issue>
  {
    if f.Rejected? then f.issues else []
  }

  // ---------------------------------------------------------------------------
  // The cross-field refinement

  /** The refinement's own issue for a variable the selected mode needs. */
  function RequiredIssue(key: string): Issue
  {
    Issue(key, Custom, Some(key + (if key == DatabaseUrlKey then " is required when not running in Azure"
                                   else " is required when running in Azure")))
  }

  /** `if (!data.X) ctx.addIssue(...)`: one issue when X is unset or empty. */
  function Require(key: string, v: Option<string>): seq<Issue>
  {
    if Truthy(v) then [] else [RequiredIssue(key)]
  }

  /** The issues the `superRefine` callback adds, in the order it adds them. */
  function RefineIssues(e: ParsedEnv): (issues: seq<Issue>)
    ensures |issues| <= |RequiredKeys(e.azureCloud)|
    ensures forall i :: 0 <= i < |issues| ==>
      issues[i].code == Custom && issues[i].path in RequiredKeys(e.azureCloud) && issues[i].message.Some?
  {
    if e.azureCloud then
      Require(AzureClientIdKey, e.azureClientId)
      + Require(AzurePgHostKey, e.azurePgHost)
      + Require(AzurePgDatabaseKey, e.azurePgDatabase)
    else
      Require(DatabaseUrlKey, e.databaseUrl)
  }

  /** The base schema `baseEnvSchema`: every variable's own check, with the
      issues of the failing ones in schema order. */
  function Decode(raw: RawEnv, c: Coercions): (r: Result<ParsedEnv, seq<Issue>>)
    ensures r.Success? <==> FieldsAcceptable(raw, c)
    ensures r.Failure? ==> |r.error| > 0
    ensures r.Success? ==>
      && r.value.azureCloud == (Lookup(raw, AzureCloudKey) == Some("true"))
      && r.value.runMigrations == (Lookup(raw, RunMigrationsKey) == Some("true"))
      && r.value.azureClientId == Lookup(raw, AzureClientIdKey)
      && r.value.azurePgHost == Lookup(raw, AzurePgHostKey)
      && r.value.azurePgDatabase == Lookup(raw, AzurePgDatabaseKey)
      && r.value.databaseUrl == Lookup(raw, DatabaseUrlKey)
      && r.value.googleClientId == Lookup(raw, GoogleClientIdKey)
      && r.value.googleClientSecret == Lookup(raw, GoogleClientSecretKey)
      && r.value.discordClientId == Lookup(raw, DiscordClientIdKey)
      && r.value.discordClientSecret == Lookup(raw, DiscordClientSecretKey)
      && r.value.betterAuthSecret == raw[AuthSecretKey]
      && |r.value.betterAuthSecret| >= MinSecretLength
      && r.value.tokenExpirationHours >= 1
      && (TokenHoursKey !in raw ==> r.value.tokenExpirationHours == DefaultTokenHours)
      && (TokenHoursKey in raw ==> c.toNumber(raw[TokenHoursKey]) == Some(r.value.tokenExpirationHours as real))
      && (r.value.azurePgPort.Some? <==> AzurePgPortKey in raw)
      && (r.value.azurePgPort.Some? ==> r.value.azurePgPort.value >= 1)
      && (AzurePgPortKey in raw ==> c.toNumber(raw[AzurePgPortKey]) == Some(r.value.azurePgPort.value as real))
      && (r.value.nodeEnv == Production <==> Lookup(raw, NodeEnvKey) == Some("production"))
      && r.value.betterAuthUrl == OrDefault(Lookup(raw, AuthUrlKey), "http://localhost:3000")
      && r.value.betterAuthTelemetry == OrDefault(Lookup(raw, AuthTelemetryKey), "0")
      && r.value.origins == OrDefault(Lookup(raw, OriginsKey), "http://localhost:5173,http://localhost:3000")
      && r.value.cookieDomain == OrDefault(Lookup(raw, CookieDomainKey), "app.example.com")
      && r.value.emailPasswordAuth == OrDefault(Lookup(raw, EmailPasswordAuthKey), "true")
      && r.value.linkAccounts == OrDefault(Lookup(raw, LinkAccountsKey), "true")
  {
    var port := ParsePgPort(raw, c);
    var secret := ParseSecret(raw);
    var authUrl := ParseAuthUrl(raw, c);
    var dbUrl := ParseDatabaseUrl(raw, c);
    var nodeEnv := ParseNodeEnv(raw);
    var hours := ParseTokenHours(raw, c);
    if port.Parsed? && secret.Parsed? && authUrl.Parsed? && dbUrl.Parsed? && nodeEnv.Parsed? && hours.Parsed? then
      Success(ParsedEnv(
        ParseFlag(Lookup(raw, AzureCloudKey)),
        Lookup(raw, AzureClientIdKey),
        Lookup(raw, AzurePgHostKey),
        port.value,
        Lookup(raw, AzurePgDatabaseKey),
        secret.value,
        authUrl.value,
        OrDefault(Lookup(raw, AuthTelemetryKey), "0"),
        Lookup(raw, GoogleClientIdKey),
        Lookup(raw, GoogleClientSecretKey),
        Lookup(raw, DiscordClientIdKey),
        Lookup(raw, DiscordClientSecretKey),
        dbUrl.value,
        ParseFlag(Lookup(raw, RunMigrationsKey)),
        OrDefault(Lookup(raw, OriginsKey), "http://localhost:5173,http://localhost:3000"),
        OrDefault(Lookup(raw, CookieDomainKey), "app.example.com"),
        nodeEnv.value,
        OrDefault(Lookup(raw, EmailPasswordAuthKey), "true"),
        OrDefault(Lookup(raw, LinkAccountsKey), "true"),
        hours.value))
    else
      Failure(IssuesOf(port) + IssuesOf(secret) + IssuesOf(authUrl) + IssuesOf(dbUrl) + IssuesOf(nodeEnv) + IssuesOf(hours))
  }

  /** The whole of `envSchema.parse(process.env)`: the base schema, then, when
      it passes, the refinement. */
  function Validate(raw: RawEnv, c: Coercions): (r: Result<ParsedEnv, seq<Issue>>)
    ensures r.Failure? ==> |r.error| > 0
    ensures r.Success? ==> r == Decode(raw, c) && RefineIssues(r.value) == []
    ensures Decode(raw, c).Success? && r.Failure? ==> r.error == RefineIssues(Decode(raw, c).value)
    ensures Decode(raw, c).Failure? ==> r == Decode(raw, c)
  {
    match Decode(raw, c)
    case Failure(issues) => Failure(issues)
    case Success(e) =>
      var issues := RefineIssues(e);
      if issues == [] then Success(e) else Failure(issues)
  }

  // ---------------------------------------------------------------------------
  // An independent statement of what the refinement demands

  /** The variables the selected mode needs, in the order they are checked. */
  function RequiredKeys(azureCloud: bool): seq<string>
  {
    if azureCloud then [AzureClientIdKey, AzurePgHostKey, AzurePgDatabaseKey] else [DatabaseUrlKey]
  }

  /** The value of one of the variables the refinement looks at. */
  function ValueOf(e: ParsedEnv, key: string): Option<string>
  {
    if key == AzureClientIdKey then e.azureClientId
    else if key == AzurePgHostKey then e.azurePgHost
    else if key == AzurePgDatabaseKey then e.azurePgDatabase
    else if key == DatabaseUrlKey then e.databaseUrl
    else None
  }

  /** The keys among `keys` whose value is unset or empty, in order. */
  function Missing(e: ParsedEnv, keys: seq<string>): seq<string>
  {
    if keys == [] then []
    else (if Truthy(ValueOf(e, keys[0])) then [] else [keys[0]]) + Missing(e, keys[1..])
  }

  function Paths(issues: seq<Issue>): seq<string>
  {
    if issues == [] then [] else [issues[0].path] + Paths(issues[1..])
  }

  /** How many of the issues are about `key`. */
  function CountPath(issues: seq<Issue>, key: string): nat
  {
    if issues == [] then 0 else (if issues[0].path == key then 1 else 0) + CountPath(issues[1..], key)
  }

  function Occurrences(keys: seq<string>, key: string): nat
  {
    if keys == [] then 0 else (if keys[0] == key then 1 else 0) + Occurrences(keys[1..], key)
  }

  lemma {:induction false} PathsAppend(a: seq<Issue>, b: seq<Issue>)
    ensures Paths(a + b) == Paths(a) + Paths(b)
  {
    if a == [] {
      assert a + b == b;
    } else {
      assert (a + b)[1..] == a[1..] + b;
      PathsAppend(a[1..], b);
    }
  }

  lemma {:induction false} CountPathIsOccurrences(issues: seq<Issue>, key: string)
    ensures CountPath(issues, key) == Occurrences(Paths(issues), key)
  {
    if issues != [] {
      CountPathIsOccurrences(issues[1..], key);
    }
  }

  /** The refinement reports exactly the missing required variables, in the
      order CLIENT_ID, PG_HOST, PG_DATABASE in Azure mode, DATABASE_URL otherwise. */
  lemma RefinePathsAreMissingKeys(e: ParsedEnv)
    ensures Paths(RefineIssues(e)) == Missing(e, RequiredKeys(e.azureCloud))
  {
    var keys := RequiredKeys(e.azureCloud);
    if e.azureCloud {
      var a := Require(AzureClientIdKey, e.azureClientId);
      var b := Require(AzurePgHostKey, e.azurePgHost);
      var d := Require(AzurePgDatabaseKey, e.azurePgDatabase);
      PathsAppend(a + b, d);
      PathsAppend(a, b);
      assert Paths(a) == (if Truthy(e.azureClientId) then [] else [AzureClientIdKey]);
      assert Paths(b) == (if Truthy(e.azurePgHost) then [] else [AzurePgHostKey]);
      assert Paths(d) == (if Truthy(e.azurePgDatabase) then [] else [AzurePgDatabaseKey]);
      assert keys[1..] == [AzurePgHostKey, AzurePgDatabaseKey];
      assert keys[1..][1..] == [AzurePgDatabaseKey];
      assert keys[1..][1..][1..] == [];
      assert ValueOf(e, AzureClientIdKey) == e.azureClientId;
      assert ValueOf(e, AzurePgHostKey) == e.azurePgHost;
      assert ValueOf(e, AzurePgDatabaseKey) == e.azurePgDatabase;
      assert Missing(e, keys[1..][1..]) == Paths(d);
      assert Missing(e, keys[1..]) == Paths(b) + Paths(d);
    } else {
      assert ValueOf(e, DatabaseUrlKey) == e.databaseUrl;
      assert Paths(RefineIssues(e)) == (if Truthy(e.databaseUrl) then [] else [DatabaseUrlKey]);
      assert keys[1..] == [];
    }
  }

  lemma {:induction false} MissingEmptyIff(e: ParsedEnv, keys: seq<string>)
    ensures Missing(e, keys) == [] <==> forall i :: 0 <= i < |keys| ==> Truthy(ValueOf(e, keys[i]))
  {
    if keys != [] {
      MissingEmptyIff(e, keys[1..]);
      assert forall i :: 1 <= i < |keys| ==> keys[i] == keys[1..][i - 1];
    }
  }

  lemma {:induction false} MissingCount(e: ParsedEnv, keys: seq<string>, key: string)
    requires forall i, j :: 0 <= i < j < |keys| ==> keys[i] != keys[j]
    ensures Occurrences(Missing(e, keys), key) == if key in keys && !Truthy(ValueOf(e, key)) then 1 else 0
  {
    if keys != [] {
      var head := if Truthy(ValueOf(e, keys[0])) then [] else [keys[0]];
      OccurrencesAppend(head, Missing(e, keys[1..]), key);
      MissingCount(e, keys[1..], key);
      assert key in keys <==> key == keys[0] || key in keys[1..];
      assert keys[0] !in keys[1..] by {
        forall i | 0 <= i < |keys[1..]| ensures keys[1..][i] != keys[0] {
          assert keys[1..][i] == keys[i + 1];
        }
      }
    }
  }

  lemma {:induction false} OccurrencesAppend(a: seq<string>, b: seq<string>, key: string)
    ensures Occurrences(a + b, key) == Occurrences(a, key) + Occurrences(b, key)
  {
    if a == [] {
      assert a + b == b;
    } else {
      assert (a + b)[1..] == a[1..] + b;
      OccurrencesAppend(a[1..], b, key);
    }
  }

  /** Each required variable that is unset or empty gets exactly one issue
      naming it, a required variable that is set gets none, and a variable the
      mode does not need is never checked: DATABASE_URL in Azure mode, the Azure
      variables otherwise. */
  lemma RefineIssueCount(e: ParsedEnv, key: string)
    ensures CountPath(RefineIssues(e), key)
         == if key in RequiredKeys(e.azureCloud) && !Truthy(ValueOf(e, key)) then 1 else 0
    ensures e.azureCloud ==> CountPath(RefineIssues(e), DatabaseUrlKey) == 0
    ensures !e.azureCloud ==> (CountPath(RefineIssues(e), AzureClientIdKey) == 0
                            && CountPath(RefineIssues(e), AzurePgHostKey) == 0
                            && CountPath(RefineIssues(e), AzurePgDatabaseKey) == 0)
  {
    forall k ensures CountPath(RefineIssues(e), k)
                  == if k in RequiredKeys(e.azureCloud) && !Truthy(ValueOf(e, k)) then 1 else 0 {
      CountPathIsOccurrences(RefineIssues(e), k);
      RefinePathsAreMissingKeys(e);
      MissingCount(e, RequiredKeys(e.azureCloud), k);
    }
  }

  /** The refinement adds no issue exactly when every variable the selected
      mode needs is set and non-empty. */
  lemma RefineEmptyIff(e: ParsedEnv)
    ensures RefineIssues(e) == [] <==>
      forall i :: 0 <= i < |RequiredKeys(e.azureCloud)| ==> Truthy(ValueOf(e, RequiredKeys(e.azureCloud)[i]))
  {
    RefinePathsAreMissingKeys(e);
    MissingEmptyIff(e, RequiredKeys(e.azureCloud));
    assert RefineIssues(e) == [] <==> Paths(RefineIssues(e)) == [];
  }

  // ---------------------------------------------------------------------------
  // What validation accepts, stated without the parsers

  /** A raw environment every check of the base schema accepts. */
  predicate FieldsAcceptable(raw: RawEnv, c: Coercions)
  {
    && (AzurePgPortKey in raw ==> PositiveSafeInteger(c.toNumber(raw[AzurePgPortKey])))
    && AuthSecretKey in raw && |raw[AuthSecretKey]| >= MinSecretLength
    && (AuthUrlKey in raw ==> c.isUrl(raw[AuthUrlKey]))
    && (DatabaseUrlKey in raw ==> c.isUrl(raw[DatabaseUrlKey]))
    && (NodeEnvKey in raw ==> raw[NodeEnvKey] == "development" || raw[NodeEnvKey] == "production")
    && (TokenHoursKey in raw ==> PositiveSafeInteger(c.toNumber(raw[TokenHoursKey])))
  }

  /** The variables the mode selected by AZURE_CLOUD needs are set and non-empty. */
  predicate ModeSatisfied(raw: RawEnv)
  {
    if Lookup(raw, AzureCloudKey) == Some("true") then
      Truthy(Lookup(raw, AzureClientIdKey)) && Truthy(Lookup(raw, AzurePgHostKey))
      && Truthy(Lookup(raw, AzurePgDatabaseKey))
    else Truthy(Lookup(raw, DatabaseUrlKey))
  }

  /** Validation succeeds exactly when every variable passes its own check and
      the selected mode has what it needs; on failure it reports at least one
      issue, and a successful result carries the mode's variables. */
  lemma ValidateAcceptsExactly(raw: RawEnv, c: Coercions)
    ensures Validate(raw, c).Success? <==> FieldsAcceptable(raw, c) && ModeSatisfied(raw)
    ensures Validate(raw, c).Failure? ==> |Validate(raw, c).error| > 0
    ensures Validate(raw, c).Success? ==> Validate(raw, c) == Decode(raw, c)
    ensures Validate(raw, c).Success? ==> var e := Validate(raw, c).value;
      && (e.azureCloud ==> Truthy(e.azureClientId) && Truthy(e.azurePgHost) && Truthy(e.azurePgDatabase))
      && (!e.azureCloud ==> Truthy(e.databaseUrl))
  {
    if Decode(raw, c).Success? {
      var e := Decode(raw, c).value;
      RefineEmptyIff(e);
      var keys := RequiredKeys(e.azureCloud);
      if e.azureCloud {
        assert keys[0] == AzureClientIdKey && keys[1] == AzurePgHostKey && keys[2] == AzurePgDatabaseKey;
      } else {
        assert keys[0] == DatabaseUrlKey;
      }
    }
  }
}
