/** The database pool bootstrap (src/lib/db/index.ts): how the pool's
    connection settings are derived in Azure and non-Azure mode, the `connect`
    override that puts a fresh access token in place of the password before
    every connection, and the lazily created module-wide pool. */
module Db {
  import opened Wrappers
  import Env

  /** The resource the access token is requested for. */
  const AzurePostgresqlScope := "https://ossrdbms-aad.database.windows.net/.default"
  const DefaultPort := 5432

  /** A URL as `new URL(...)` exposes it; parsing itself is not modelled. The
      port is "" when the URL names none, otherwise its decimal digits. */
  datatype Url = Url(hostname: string, port: string, pathname: string)

  /** `env.DATABASE_URL`: the text of the variable and its parsed form. */
  datatype DatabaseUrl = DatabaseUrl(text: string, parsed: Url)

  /** The options object handed to `new pg.Pool(...)`; only `password` is
      ever changed afterwards. */
  datatype PoolOptions = PoolOptions(
    host: Option<string>,
    port: Option<nat>,
    database: Option<string>,
    user: Option<string>,
    password: Option<string>,
    connectionString: Option<string>,
    sslRejectUnauthorized: Option<bool>)

  /** `new URL(env.DATABASE_URL)` throws when the variable is unset. */
  datatype PoolError = InvalidUrl

  /** What `createPool` builds: the options, and whether `connect` is
      overridden to fetch a token first. */
  datatype Setup = Setup(options: PoolOptions, refreshesToken: bool)

  // ---------------------------------------------------------------------------
  // Port numbers

  predicate IsDigit(ch: char)
  {
    '0' <= ch <= '9'
  }

  predicate AllDigits(s: string)
  {
    forall i :: 0 <= i < |s| ==> IsDigit(s[i])
  }

  /** The value of a string of decimal digits ("" has value 0). */
  function Decimal(s: string): nat
    requires AllDigits(s)
  {
    if s == [] then 0 else Decimal(s[..|s| - 1]) * 10 + (s[|s| - 1] as int - '0' as int)
  }

  /** The decimal digits of a number, as a URL serializes its port. */
  function DecimalString(n: nat): (s: string)
    ensures |s| > 0 && AllDigits(s)
  {
    var last := ['0' + (n % 10) as char];
    if n < 10 then last else DecimalString(n / 10) + last
  }

  lemma {:induction false} DecimalRoundTrip(n: nat)
    ensures Decimal(DecimalString(n)) == n
  {
    var s := DecimalString(n);
    if n >= 10 {
      DecimalRoundTrip(n / 10);
      assert s[..|s| - 1] == DecimalString(n / 10);
    }
  }

  /** `Number(url.port)`: the value of the digits, 0 for "". Any other string
      would give NaN, which is falsy like 0; a parsed URL never has one. */
  function PortNumber(port: string): nat
  {
    if AllDigits(port) then Decimal(port) else 0
  }

  /** `Number(url.port) || 5432`. */
  function ResolvePort(port: string): (n: nat)
    ensures n >= 1
    ensures port == "" ==> n == DefaultPort
    ensures AllDigits(port) && Decimal(port) != 0 ==> n == Decimal(port)
    ensures AllDigits(port) && Decimal(port) == 0 ==> n == DefaultPort
  {
    var given := PortNumber(port);
    if given != 0 then given else DefaultPort
  }

  /** A URL that names port k connects to k, except that port 0, like no
      port at all, falls back to 5432. */
  lemma PortOfSerializedUrl(k: nat)
    ensures ResolvePort(DecimalString(k)) == if k == 0 then DefaultPort else k
  {
    DecimalRoundTrip(k);
  }

  /** `url.pathname.slice(1)`: the path without its first character. */
  function DatabaseName(pathname: string): (name: string)
    ensures |pathname| == 0 ==> name == ""
    ensures |pathname| > 0 ==> [pathname[0]] + name == pathname
  {
    if |pathname| == 0 then "" else pathname[1..]
  }

  lemma DatabaseNameDropsLeadingSlash(name: string)
    ensures DatabaseName("/" + name) == name
  {
  }

  // ---------------------------------------------------------------------------
  // Connection settings

  /** Azure mode is read from `process.env.AZURE_CLOUD` itself, not from the
      validated environment. */
  predicate AzureMode(processEnv: Env.RawEnv)
  {
    Env.AzureCloudKey in processEnv && processEnv[Env.AzureCloudKey] == "true"
  }

  /** The settings `createPool` derives: in Azure mode host, port and database
      from the parsed DATABASE_URL, the user from AZURE_CLIENT_ID, no password
      yet, and TLS without certificate verification; otherwise only the
      connection string. */
  function PoolSetup(processEnv: Env.RawEnv, databaseUrl: Option<DatabaseUrl>): (r: Result<Setup, PoolError>)
    ensures r.Failure? <==> AzureMode(processEnv) && databaseUrl.None?
    ensures r.Success? ==> (r.value.refreshesToken <==> AzureMode(processEnv))
    ensures r.Success? && AzureMode(processEnv) ==>
      var url := databaseUrl.value.parsed;
      && r.value.options.host == Some(url.hostname)
      && r.value.options.port == Some(ResolvePort(url.port))
      && r.value.options.database == Some(DatabaseName(url.pathname))
      && r.value.options.user == Env.Lookup(processEnv, Env.AzureClientIdKey)
      && r.value.options.password.None?
      && r.value.options.connectionString.None?
      && r.value.options.sslRejectUnauthorized == Some(false)
    ensures r.Success? && !AzureMode(processEnv) ==>
      r.value.options == PoolOptions(None, None, None, None, None,
                                     if databaseUrl.Some? then Some(databaseUrl.value.text) else None, None)
  {
    if AzureMode(processEnv) then
      match databaseUrl
      case None => Failure(InvalidUrl)
      case Some(u) =>
        Success(Setup(PoolOptions(
          Some(u.parsed.hostname),
          Some(ResolvePort(u.parsed.port)),
          Some(DatabaseName(u.parsed.pathname)),
          Env.Lookup(processEnv, Env.AzureClientIdKey),
          None,
          None,
          Some(false)), true))
    else
      var text := match databaseUrl case Some(u) => Some(u.text) case None => None;
      Success(Setup(PoolOptions(None, None, None, None, None, text, None), false))
  }

  /** `databaseUrl` is what the validated environment holds in DATABASE_URL. */
  predicate Describes(databaseUrl: Option<DatabaseUrl>, text: Option<string>)
  {
    match databaseUrl
    case None => text.None?
    case Some(u) => text == Some(u.text)
  }

  /** The pool's mode is the validated environment's AZURE_CLOUD flag. */
  lemma AzureModeIsValidatedFlag(raw: Env.RawEnv, c: Env.Coercions)
    requires Env.Validate(raw, c).Success?
    ensures AzureMode(raw) == Env.Validate(raw, c).value.azureCloud
  {
    Env.ValidateAcceptsExactly(raw, c);
  }

  /** With a validated environment the pool settings can be derived whenever
      DATABASE_URL is set: in Azure mode the user is the non-empty client id,
      otherwise the connection string is the non-empty DATABASE_URL. */
  lemma ValidatedSetup(raw: Env.RawEnv, c: Env.Coercions, databaseUrl: Option<DatabaseUrl>)
    requires Env.Validate(raw, c).Success?
    requires Describes(databaseUrl, Env.Validate(raw, c).value.databaseUrl)
    ensures !AzureMode(raw) ==> PoolSetup(raw, databaseUrl).Success?
    ensures !AzureMode(raw) ==> Env.Truthy(PoolSetup(raw, databaseUrl).value.options.connectionString)
    ensures AzureMode(raw) && databaseUrl.Some? ==> Env.Truthy(PoolSetup(raw, databaseUrl).value.options.user)
  {
    Env.ValidateAcceptsExactly(raw, c);
  }

  /** Validation does not demand DATABASE_URL in Azure mode, yet the Azure
      branch of `createPool` reads it: an environment that validates can still
      make pool creation throw. */
  lemma ValidatedAzureEnvMayLackDatabaseUrl(c: Env.Coercions)
    ensures var raw := map[
        Env.AzureCloudKey := "true",
        Env.AzureClientIdKey := "client",
        Env.AzurePgHostKey := "host",
        Env.AzurePgDatabaseKey := "db",
        Env.AuthSecretKey := "0123456789abcdef0123456789abcdef"];
      && Env.Validate(raw, c).Success?
      && AzureMode(raw)
      && Describes(None, Env.Validate(raw, c).value.databaseUrl)
      && PoolSetup(raw, None) == Failure(InvalidUrl)
  {
    var raw := map[
        Env.AzureCloudKey := "true",
        Env.AzureClientIdKey := "client",
        Env.AzurePgHostKey := "host",
        Env.AzurePgDatabaseKey := "db",
        Env.AuthSecretKey := "0123456789abcdef0123456789abcdef"];
    assert raw.Keys == {Env.AzureCloudKey, Env.AzureClientIdKey, Env.AzurePgHostKey, Env.AzurePgDatabaseKey, Env.AuthSecretKey};
    assert Env.AzurePgPortKey !in raw;
    assert Env.AuthUrlKey !in raw;
    assert Env.DatabaseUrlKey !in raw;
    assert Env.NodeEnvKey !in raw;
    assert Env.TokenHoursKey !in raw;
    assert Env.FieldsAcceptable(raw, c);
    assert Env.ModeSatisfied(raw);
    Env.ValidateAcceptsExactly(raw, c);
  }

  // ---------------------------------------------------------------------------
  // The token source, the pool and the lazy singleton

  /** `DefaultAzureCredential`: `outcomes(n)` is the answer to the n-th token
      request, a token or None for a rejected request. */
  class Credential {
    const outcomes: nat -> Option<string>
    /** The scope of every token request made so far. */
    var scopes: seq<string>

    constructor (outcomes: nat -> Option<string>)
      ensures this.outcomes == outcomes && scopes == []
    {
      this.outcomes := outcomes;
      scopes := [];
    }

    /** `credential.getToken(scope)`. */
    method GetToken(scope: string) returns (token: Option<string>)
      modifies this
      ensures scopes == old(scopes) + [scope]
      ensures token == outcomes(|old(scopes)|)
    {
      token := outcomes(|scopes|);
      scopes := scopes + [scope];
    }
  }

  /** A `pg.Pool`: its options, the credential its overridden `connect` asks
      for tokens (null when `connect` is pg's own), and, for every connection
      pg's own `connect` has opened, the password it used. */
  class Pool {
    var options: PoolOptions
    const credential: Credential?
    ghost var connections: seq<Option<string>>

    constructor (options: PoolOptions, credential: Credential?)
      ensures this.options == options && this.credential == credential && connections == []
    {
      this.options := options;
      this.credential := credential;
      connections := [];
    }

    /** `originalConnect()`: pg's own connect, which reads the password from
        the options at the moment it runs. */
    method OriginalConnect()
      modifies this
      ensures options == old(options)
      ensures connections == old(connections) + [options.password]
    {
      connections := connections + [options.password];
    }

    /** `pool.connect()`. Overridden in Azure mode: fetch a token, store it as
        the password, and only then run pg's own connect; a rejected token
        request rejects the connect and changes no option. */
    method Connect() returns (delegated: bool)
      modifies this, credential
      ensures credential == null ==>
        delegated && options == old(options) && connections == old(connections) + [options.password]
      ensures credential != null ==> credential.scopes == old(credential.scopes) + [AzurePostgresqlScope]
      ensures credential != null ==>
        var token := credential.outcomes(|old(credential.scopes)|);
        && delegated == token.Some?
        && (token.Some? ==> options == old(options).(password := token) && connections == old(connections) + [token])
        && (token.None? ==> options == old(options) && connections == old(connections))
    {
      if credential == null {
        OriginalConnect();
        return true;
      }
      var token := credential.GetToken(AzurePostgresqlScope);
      if token.None? {
        return false;
      }
      options := options.(password := token);
      OriginalConnect();
      delegated := true;
    }
  }

  /** `createPool()`: build the pool from the settings; in Azure mode with a
      fresh credential and the token-fetching `connect`. */
  method CreatePool(processEnv: Env.RawEnv, databaseUrl: Option<DatabaseUrl>, tokenOutcomes: nat -> Option<string>)
    returns (r: Result<Pool, PoolError>)
    ensures r.Failure? <==> PoolSetup(processEnv, databaseUrl).Failure?
    ensures r.Failure? ==> r.error == PoolSetup(processEnv, databaseUrl).error
    ensures r.Success? ==> fresh(r.value) && r.value.connections == []
    ensures r.Success? ==> r.value.options == PoolSetup(processEnv, databaseUrl).value.options
    ensures r.Success? ==> (r.value.credential != null <==> AzureMode(processEnv))
    ensures r.Success? && r.value.credential != null ==>
      fresh(r.value.credential) && r.value.credential.outcomes == tokenOutcomes && r.value.credential.scopes == []
  {
    match PoolSetup(processEnv, databaseUrl)
    case Failure(e) =>
      r := Failure(e);
    case Success(setup) =>
      var credential: Credential? := null;
      if setup.refreshesToken {
        credential := new Credential(tokenOutcomes);
      }
      var pool := new Pool(setup.options, credential);
      r := Success(pool);
  }

  /** The module's `pool` variable and `getPool`, with what `createPool` reads:
      the process environment, DATABASE_URL and the token source. */
  class PoolManager {
    const processEnv: Env.RawEnv
    const databaseUrl: Option<DatabaseUrl>
    const tokenOutcomes: nat -> Option<string>
    var pool: Pool?
    /** How many times `createPool` has run. */
    ghost var creations: nat

    constructor (processEnv: Env.RawEnv, databaseUrl: Option<DatabaseUrl>, tokenOutcomes: nat -> Option<string>)
      ensures pool == null && creations == 0
      ensures this.processEnv == processEnv && this.databaseUrl == databaseUrl && this.tokenOutcomes == tokenOutcomes
    {
      this.processEnv := processEnv;
      this.databaseUrl := databaseUrl;
      this.tokenOutcomes := tokenOutcomes;
      pool := null;
      creations := 0;
    }

    /** `getPool()`: create the pool when there is none yet, and return the
        stored one. Once a pool is stored it is returned by every later call
        and `createPool` never runs again; a creation that throws leaves no
        pool, so the next call tries again. */
    method GetPool() returns (r: Result<Pool, PoolError>)
      modifies this
      ensures r.Success? ==> pool == r.value
      ensures old(pool) != null ==> r == Success(old(pool)) && pool == old(pool) && creations == old(creations)
      ensures old(pool) == null ==> creations == old(creations) + 1
      ensures old(pool) == null ==> (r.Failure? <==> PoolSetup(processEnv, databaseUrl).Failure?)
      ensures old(pool) == null && r.Failure? ==> pool == null && r.error == PoolSetup(processEnv, databaseUrl).error
      ensures old(pool) == null && r.Success? ==>
        && fresh(r.value) && r.value.connections == []
        && r.value.options == PoolSetup(processEnv, databaseUrl).value.options
        && (r.value.credential != null <==> AzureMode(processEnv))
        && (r.value.credential != null ==>
              fresh(r.value.credential) && r.value.credential.outcomes == tokenOutcomes && r.value.credential.scopes == [])
    {
      if pool == null {
        var created := CreatePool(processEnv, databaseUrl, tokenOutcomes);
        creations := creations + 1;
        if created.Failure? {
          return created;
        }
        pool := created.value;
      }
      r := Success(pool);
    }
  }
}
