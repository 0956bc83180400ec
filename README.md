# hono-auth: environment validation, database pool bootstrap, log serializers and error handler

A Dafny model of the logic the hono-auth service runs on its own. Everything
else in the service is configuration handed to libraries.

- **Env** (`env.dfy`, src/lib/env.ts) models environment validation. Each
  variable has its own check with a default. The `AZURE_CLOUD` and
  `RUN_MIGRATIONS` flags are true only for the exact string `"true"`. A
  cross-field refinement then asks for what the selected mode needs. Azure
  mode needs `AZURE_CLIENT_ID`, `AZURE_PG_HOST` and `AZURE_PG_DATABASE`, in
  that order. Non-Azure mode needs `DATABASE_URL`. The process environment
  is a `map<string, string>`, the validated environment is a record of
  `Option` fields, and the refinement is a function that returns the list of
  issues.
- **Db** (`db.dfy`, src/lib/db/index.ts) models the pool bootstrap.
  - `PoolSetup` derives the pool settings. In Azure mode the host comes from
    the parsed `DATABASE_URL`. The port is `Number(url.port) || 5432`. The
    database is the pathname without its first character. The user is
    `AZURE_CLIENT_ID`. In non-Azure mode the pool gets only the connection
    string.
  - Three classes hold the mutable state:
    - `Credential` is the token source. `outcomes(n)` is its answer to the
      n-th request.
    - `Pool` is a `pg.Pool`. Its overridden `Connect` stores a fresh token
      as the password before it runs pg's own connect.
    - `PoolManager` is the module-level nullable `pool` with `getPool`.
- **Logger** (`logger.dfy`, src/lib/logger.ts) models the two log
  serializers.
  - The request serializer copies method and URL. It copies the headers, and
    when the `cookie` or `authorization` value is truthy it replaces that
    value with `"[REDACTED]"`.
  - The response serializer keeps only the status code.
- **OnError** (`on_error.dfy`, src/middleware/on-error.ts) models the error
  handler. It picks the HTTP status and builds the JSON body, and it drops
  the stack in production.
- **Wrappers** (`wrappers.dfy`) holds `Option` and `Result`.

How the model treats two details of the source:

- **`DATABASE_URL` in Azure mode.** The Azure branch of `createPool` parses
  `env.DATABASE_URL` (src/lib/db/index.ts:15). Validation, however, requires
  that variable only outside Azure mode (src/lib/env.ts:72-80).
  - When the variable is unset, `new URL(undefined)` throws. The model
    follows that as an error path rather than a precondition.
  - `PoolSetup` and `CreatePool` return `Failure(InvalidUrl)`. After such a
    failure `GetPool` stores no pool, so the next call tries again.
  - `Db.ValidatedAzureEnvMayLackDatabaseUrl` gives an environment that
    passes validation yet makes pool creation throw.
- **Where the Azure settings come from.** `createPool` reads `AZURE_CLOUD`
  and `AZURE_CLIENT_ID` from `process.env` itself, not from the validated
  environment. `Db.AzureMode` therefore works on the raw map, and
  `Db.AzureModeIsValidatedFlag` shows that it agrees with the validated flag.

## Model

| member | source | states |
|---|---|---|
| `Env.ParseFlag` | src/lib/env.ts:5-8 | A flag is true exactly when the variable is the string "true". An unset flag is false. The same rule serves RUN_MIGRATIONS (lines 34-37). |
| `Env.PositiveIntIssues` | src/lib/env.ts:13 | No issue exactly when the coerced number is a positive safe integer. The issue list is given in full. A NaN gives one type issue. A fraction gives one integer issue and stops there. A safe integer that is not positive gives one too-small issue. An integer beyond the safe range gives its range issue, and a negative one also gets the positivity issue. Every issue names the variable. |
| `Env.CoercePositiveInt` | src/lib/env.ts:45 | The value is accepted exactly when `Number(s)` is a positive safe integer, and then it is that integer (at least 1). A rejection carries at least one issue. |
| `Env.ParsePgPort` | src/lib/env.ts:13 | AZURE_PG_PORT is optional: unset gives None. When set, it is accepted exactly when it is a positive safe integer, and the value is that number (at least 1). |
| `Env.ParseTokenHours` | src/lib/env.ts:45 | TOKEN_EXPIRATION_HOURS defaults to 4 when unset. When set, it is accepted exactly when it is a positive safe integer, and the value is that number. The value is always at least 1. |
| `Env.ParseSecret` | src/lib/env.ts:17-22 | BETTER_AUTH_SECRET is accepted exactly when it is set and has at least 32 characters. A secret that is set but too short is rejected with the source's message. |
| `Env.ParseAuthUrl` | src/lib/env.ts:23 | BETTER_AUTH_URL defaults to http://localhost:3000. When set, it is accepted exactly when it is a URL. |
| `Env.ParseDatabaseUrl` | src/lib/env.ts:33 | DATABASE_URL is optional. When set, it is accepted exactly when it is a URL. A rejection gives one issue with the source's message. |
| `Env.ParseNodeEnv` | src/lib/env.ts:42 | NODE_ENV defaults to development. It is accepted only as "development" or "production", and it parses to Production exactly for "production". |
| `Env.Decode` | src/lib/env.ts:3-46 | The base schema succeeds exactly when every variable passes its own check, and a failure carries at least one issue. A success gives the flags, the optional strings as given (Azure, Google, Discord and DATABASE_URL), the secret as given with its length bound, AZURE_PG_PORT present exactly when set and equal to its number, TOKEN_EXPIRATION_HOURS equal to its number when set, and every default. |
| `Env.RefineIssues` | src/lib/env.ts:48-81 | The refinement adds at most one issue per required variable of the selected mode. Every issue is a custom issue with a message, and it names one of those variables. |
| `Env.RefinePathsAreMissingKeys` | src/lib/env.ts:48-81 | The refinement's issues name exactly the missing or empty required variables, in checking order: CLIENT_ID, PG_HOST, PG_DATABASE in Azure mode, DATABASE_URL otherwise. |
| `Env.RefineIssueCount` | src/lib/env.ts:49-80 | A required variable that is unset or empty gets exactly one issue. A required variable that is set gets none. DATABASE_URL is never checked in Azure mode, and the Azure variables are never checked outside it. |
| `Env.RefineEmptyIff` | src/lib/env.ts:48-81 | The refinement adds no issue if and only if every variable the selected mode needs is set and non-empty. |
| `Env.Validate` | src/lib/env.ts:83 | A failure carries at least one issue. A failure of the base schema is passed on unchanged. Otherwise the result is a failure with exactly the refinement's issues, or, when there are none, the base schema's success. |
| `Env.ValidateAcceptsExactly` | src/lib/env.ts:3-83 | Validation succeeds if and only if every variable passes its own check and the mode's required variables are set and non-empty. On failure it reports at least one issue. A validated environment carries the mode's variables. |
| `Db.ResolvePort` | src/lib/db/index.ts:19 | The port is at least 1. An empty port or a port of value 0 gives 5432. Any other digit string gives its decimal value. |
| `Db.PortOfSerializedUrl` | src/lib/db/index.ts:19 | A URL that names port k connects to k, except that port 0 falls back to 5432. |
| `Db.DatabaseName` | src/lib/db/index.ts:20 | The database name is the pathname with its first character removed. An empty pathname gives "". |
| `Db.DatabaseNameDropsLeadingSlash` | src/lib/db/index.ts:20 | The database name of "/name" is name. |
| `Db.PoolSetup` | src/lib/db/index.ts:13-38 | Creation fails exactly in Azure mode with DATABASE_URL unset. Azure mode gives the URL's host, the resolved port, the database name, the raw AZURE_CLIENT_ID as user, no password, rejectUnauthorized false and a token-refreshing connect. Non-Azure mode gives options with the connection string (DATABASE_URL's text, or none when unset) and every other option unset, and connect is not overridden. |
| `Db.AzureModeIsValidatedFlag` | src/lib/db/index.ts:13 | The pool's mode, read from process.env, agrees with the validated AZURE_CLOUD flag. |
| `Db.ValidatedSetup` | src/lib/db/index.ts:13-38 | After validation, non-Azure mode gets a non-empty connection string. Azure mode with DATABASE_URL set gets a non-empty user. |
| `Db.ValidatedAzureEnvMayLackDatabaseUrl` | src/lib/db/index.ts:15 | Some environment passes validation in Azure mode without DATABASE_URL, and pool creation then fails. |
| `Db.Credential.constructor` | src/lib/db/index.ts:14 | A new credential has made no token request. |
| `Db.Credential.GetToken` | src/lib/db/index.ts:28 | Each request records its scope and returns the source's answer to that request, in order. |
| `Db.Pool.constructor` | src/lib/db/index.ts:17-23 | A new pool holds the given options and has opened no connection. |
| `Db.Pool.OriginalConnect` | src/lib/db/index.ts:26 | pg's own connect opens a connection with the password current when it runs, and it changes no option. |
| `Db.Pool.Connect` | src/lib/db/index.ts:26-32 | In Azure mode every connect first requests a token for the PostgreSQL scope. On success the password becomes that token, host, port, database and user stay unchanged, and pg's connect then runs with the new token. A rejected request changes nothing and does not connect. Without the override, pg's connect runs directly. |
| `Db.CreatePool` | src/lib/db/index.ts:11-39 | Creation fails exactly when the settings cannot be derived. Otherwise it gives a fresh pool with the derived options. In Azure mode, and only then, the pool gets a fresh credential that has made no request. |
| `Db.PoolManager.constructor` | src/lib/db/index.ts:41 | The stored pool starts as null. |
| `Db.PoolManager.GetPool` | src/lib/db/index.ts:43-48 | createPool runs only when no pool is stored. Once a pool is stored, every later call returns that same pool and does not create another. A creation that fails stores nothing. The pool a first call creates is fresh, has the derived options and has opened no connection. In Azure mode, and only then, it has a fresh credential drawing on the manager's token source that has made no request yet. |
| `Logger.RedactHeaders` | src/lib/logger.ts:23-29 | No header key is added or removed. A truthy cookie or authorization value becomes "[REDACTED]". Every other value is copied unchanged. |
| `Logger.SerializeRequest` | src/lib/logger.ts:22-35 | The logged request carries the input's method and URL and the redacted headers. |
| `Logger.NoCredentialLeaks` | src/lib/logger.ts:24-29 | A logged cookie or authorization header is "[REDACTED]" or the falsy value it already had. |
| `Logger.RedactIdempotent` | src/lib/logger.ts:22-35 | Redacting already-redacted headers changes nothing. |
| `Logger.SerializeRequestIdempotent` | src/lib/logger.ts:22-35 | Serializing a logged request again gives the same log entry. |
| `Logger.SerializeResponse` | src/lib/logger.ts:19-21 | The logged response carries the response's status code. |
| `Logger.ResponseLogIsStatusOnly` | src/lib/logger.ts:19-21 | The logged response carries the status code and depends on nothing else. Two responses log the same entry if and only if their status codes are equal. |
| `OnError.ResolveNodeEnv` | src/middleware/on-error.ts:16 | The environment is c.env.NODE_ENV when it is set and non-empty, and process.env.NODE_ENV otherwise. |
| `OnError.StatusAsWritten` | src/middleware/on-error.ts:7-14 | The status is the error's own status when it has one, and the context's fresh-response status otherwise. |
| `OnError.Body` | src/middleware/on-error.ts:17-22 | The body carries the error's message and the given status. The stack is absent in "production" and equals the error's stack otherwise. |
| `OnError.HandleAsWritten` | src/middleware/on-error.ts:6-25 | The response status is the chosen status, and the body's status equals it. The body carries the error's message. The stack is dropped exactly in production or when the error has none. |
| `OnError.PlainErrorAnsweredOk` | src/middleware/on-error.ts:4-14 | As written, an error without a status, thrown where the response status is still 200, is answered with 200 and not 500. |
| `OnError.Status` | src/middleware/on-error.ts:4-14 | The corrected status is never 200. It equals the as-written status whenever that is not 200, and it is 500 otherwise. |
| `OnError.Handle` | src/middleware/on-error.ts:6-25 | The corrected handler never answers 200, and the body's status equals the response status. An error with its own non-200 status keeps it. A plain error in a fresh context gets 500. |
| `OnError.HandleAgreesWithAsWritten` | src/middleware/on-error.ts:6-25 | The correction changes only the status. Message and stack are the same, and the whole response is the same wherever the as-written status is not 200. |

## Findings

| source | as written | input that shows it | evidently intended | confidence | as-written member | corrected member |
|---|---|---|---|---|---|---|
| src/middleware/on-error.ts:9-14 | An error without a `status` property takes the status of `c.newResponse(null)`. That is 200 unless the route set another status. The 500 declared at line 4 and assigned at line 7 is overwritten on both branches. | A route throws `new Error("boom")` without setting a status. The reply is HTTP 200 with body status 200. | An error reply carries an error status: 500 where the chosen status would be 200. | medium, not executed | `OnError.PlainErrorAnsweredOk` | `OnError.Handle` |

## Left out

- Bearer-token and JWT verification, key-set fetching and caching, session lookup, and OAuth all live inside the better-auth library. src/lib/auth.ts only configures that library, so none of it is part of this model.
- src/lib/auth.ts (apart from the above), src/index.ts, src/lib/db/migrate.ts, src/middleware/not-found.ts and eslint.config.js are routing, configuration and console glue with no logic of their own to prove.
- The Drizzle wrapper (src/lib/db/index.ts:50-58) is not modelled. Neither is how pg's `query` reaches `connect`: that is pg's code.
- pg's pool, its connection protocol and the connections themselves are not modelled. `OriginalConnect` only records the password a new connection would use.
- Token issuance by `DefaultAzureCredential` is an abstract sequence of answers, where None stands for a rejected request. Token expiry is not modelled.
- URL parsing is not modelled: `Url` is an already-parsed record. A port string that is neither empty nor decimal digits cannot come from a parsed URL, and it is treated like NaN.
- zod's URL check and JavaScript's `Number(...)` are given as the parameters of `Env.Coercions`, not reimplemented.
- Concurrency is not modelled. `getPool` checks `pool` and assigns it after an `await` with no guard, so two concurrent first calls can each run `createPool`. The model is sequential and claims no exactly-once creation under concurrency.
- pino's own redaction paths (src/lib/logger.ts:7-16), transport, timestamp and level formatting are the library's job.
- Env.Validate: the refinement runs only when every variable passes its own check. zod may also run it after a failed format or range check and append its issues. Whether validation succeeds is the same either way. Only the issue list can then lack the refinement's issues.
- Env.ParseSecret: the length is counted in Unicode scalar values, not in the UTF-16 code units JavaScript counts. The two differ only for characters outside the Basic Multilingual Plane.
- Env.PositiveIntIssues: for an integer beyond the safe range the model reports one range issue and then the positivity check. It does not claim that zod's codes for that rare case are exactly these.
- Issue messages: the messages zod generates itself are not modelled (None). Only the messages the source supplies are kept.
- OnError.StatusAsWritten: an error whose `status` property holds something other than a number is not modelled.
- Logger.RedactHeaders: header names are matched exactly as given, as the source does. Node delivers them in lower case.
- Logger.SerializeRequest: the shallow copy and the fact that the input object is not mutated are not visible in a model of immutable values.
- The module-level `env = envSchema.parse(process.env)` throws at start-up on invalid input. The model returns the issues in a `Result` instead.
