/** The application's error handler (src/middleware/on-error.ts): the HTTP
    status and JSON body sent for an error that escaped a route. */
module OnError {
  import opened Wrappers
  import Env

  const InternalServerError := 500
  const Ok := 200
  const ProductionEnv := "production"

  /** A thrown error: its message, its stack when it has one, and its own
      `status` property when it has one (the framework's HTTP errors do). */
  datatype ThrownError = ThrownError(message: string, stack: Option<string>, status: Option<int>)

  /** What the handler reads from the request context: `c.env?.NODE_ENV`, and
      the status a fresh `c.newResponse(null)` would carry (200 unless a route
      set another before throwing). */
  datatype Context = Context(bindingsNodeEnv: Option<string>, responseStatus: int)

  /** The JSON body; `stack: undefined` is left out of the JSON, so None. */
  datatype ErrorBody = ErrorBody(message: string, status: int, stack: Option<string>)

  datatype JsonResponse = JsonResponse(status: int, body: ErrorBody)

  /** `c.env?.NODE_ENV || process.env?.NODE_ENV`. */
  function ResolveNodeEnv(bindings: Option<string>, process: Option<string>): (env: Option<string>)
    ensures Env.Truthy(bindings) ==> env == bindings
    ensures !Env.Truthy(bindings) ==> env == process
  {
    if Env.Truthy(bindings) then bindings else process
  }

  /** The status the handler picks, as written: the error's own status if it
      has one, otherwise the context's current response status. */
  function StatusAsWritten(err: ThrownError, c: Context): (status: int)
    ensures err.status.Some? ==> status == err.status.value
    ensures err.status.None? ==> status == c.responseStatus
  {
    if err.status.Some? then err.status.value else c.responseStatus
  }

  /** The body for a given status: the message, the status, and the stack
      unless the resolved environment is "production". */
  function Body(err: ThrownError, status: int, env: Option<string>): (b: ErrorBody)
    ensures b.message == err.message && b.status == status
    ensures b.stack == if env == Some(ProductionEnv) then None else err.stack
  {
    ErrorBody(err.message, status, if env == Some(ProductionEnv) then None else err.stack)
  }

  /** The handler as written. */
  function HandleAsWritten(err: ThrownError, c: Context, processNodeEnv: Option<string>): (resp: JsonResponse)
    ensures resp.status == StatusAsWritten(err, c)
    ensures resp.body.status == resp.status
    ensures resp.body.message == err.message
    ensures resp.body.stack.Some? ==> resp.body.stack == err.stack
    ensures resp.body.stack.None? <==> err.stack.None? || ResolveNodeEnv(c.bindingsNodeEnv, processNodeEnv) == Some(ProductionEnv)
  {
    var status := StatusAsWritten(err, c);
    JsonResponse(status, Body(err, status, ResolveNodeEnv(c.bindingsNodeEnv, processNodeEnv)))
  }

  /** A plain `Error` thrown by a route that set no status is answered, as
      written, with 200 OK: the 500 the handler declares is never used. */
  lemma PlainErrorAnsweredOk(message: string, stack: Option<string>, env: Option<string>)
    ensures HandleAsWritten(ThrownError(message, stack, None), Context(env, Ok), None).status == Ok
    ensures HandleAsWritten(ThrownError(message, stack, None), Context(env, Ok), None).status != InternalServerError
  {
  }

  /** The status the handler evidently means: the same choice, except that a
      status of 200, which is no error status, becomes 500. */
  function Status(err: ThrownError, c: Context): (status: int)
    ensures status != Ok
    ensures StatusAsWritten(err, c) != Ok ==> status == StatusAsWritten(err, c)
    ensures StatusAsWritten(err, c) == Ok ==> status == InternalServerError
  {
    var chosen := StatusAsWritten(err, c);
    if chosen != Ok then chosen else InternalServerError
  }

  /** The handler with the corrected status. */
  function Handle(err: ThrownError, c: Context, processNodeEnv: Option<string>): (resp: JsonResponse)
    ensures resp.status != Ok
    ensures resp.body.status == resp.status
    ensures err.status.Some? && err.status.value != Ok ==> resp.status == err.status.value
    ensures err.status.None? && c.responseStatus == Ok ==> resp.status == InternalServerError
  {
    var status := Status(err, c);
    JsonResponse(status, Body(err, status, ResolveNodeEnv(c.bindingsNodeEnv, processNodeEnv)))
  }

  /** The correction touches only the status: wherever the handler as written
      does not answer 200 the two agree, and the message and stack are always
      the same. */
  lemma HandleAgreesWithAsWritten(err: ThrownError, c: Context, processNodeEnv: Option<string>)
    ensures Handle(err, c, processNodeEnv).body.message == HandleAsWritten(err, c, processNodeEnv).body.message
    ensures Handle(err, c, processNodeEnv).body.stack == HandleAsWritten(err, c, processNodeEnv).body.stack
    ensures HandleAsWritten(err, c, processNodeEnv).status != Ok ==>
              Handle(err, c, processNodeEnv) == HandleAsWritten(err, c, processNodeEnv)
  {
  }
}
