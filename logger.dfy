/** The request and response serializers the logger is configured with
    (src/lib/logger.ts): what of a request or response reaches a log line. */
module Logger {

  /** A header value as Node gives it: a string, a list of strings (for
      repeated headers), or `undefined`. */
  datatype HeaderValue = Text(text: string) | Many(items: seq<string>) | Unset

  type Headers = map<string, HeaderValue>

  const Censor := "[REDACTED]"
  const CookieHeader := "cookie"
  const AuthorizationHeader := "authorization"

  /** An incoming request: its method, URL and headers, and everything else
      the request object carries. */
  datatype Request = Request(httpMethod: string, url: string, headers: Headers, others: map<string, string>)

  /** An outgoing response: its status and everything else it carries. */
  datatype Response = Response(statusCode: int, headers: Headers, others: map<string, string>)

  datatype LoggedRequest = LoggedRequest(httpMethod: string, url: string, headers: Headers)
  datatype LoggedResponse = LoggedResponse(statusCode: int)

  /** JavaScript truthiness of a header value: a non-empty string, or any list. */
  predicate Truthy(v: HeaderValue)
  {
    match v
    case Text(s) => s != ""
    case Many(_) => true
    case Unset => false
  }

  predicate IsCredentialHeader(key: string)
  {
    key == CookieHeader || key == AuthorizationHeader
  }

  /** `if (headers.k) headers.k = "[REDACTED]"` on the copy. */
  function Censored(h: Headers, key: string): Headers
  {
    if key in h && Truthy(h[key]) then h[key := Text(Censor)] else h
  }

  /** The headers of the serialized request: the copy with a truthy cookie and
      a truthy authorization replaced by the censor string. No header is added
      or removed, and every other header keeps its value. */
  function RedactHeaders(h: Headers): (r: Headers)
    ensures r.Keys == h.Keys
    ensures forall k :: k in h ==> r[k] == if IsCredentialHeader(k) && Truthy(h[k]) then Text(Censor) else h[k]
  {
    Censored(Censored(h, CookieHeader), AuthorizationHeader)
  }

  /** `serializers.req`: method and URL as they are, headers redacted. */
  function SerializeRequest(req: Request): (out: LoggedRequest)
    ensures out.httpMethod == req.httpMethod && out.url == req.url
    ensures out.headers == RedactHeaders(req.headers)
  {
    LoggedRequest(req.httpMethod, req.url, RedactHeaders(req.headers))
  }

  /** `serializers.res`: only the status code. */
  function SerializeResponse(res: Response): (out: LoggedResponse)
    ensures out.statusCode == res.statusCode
  {
    LoggedResponse(res.statusCode)
  }

  /** No credential header survives serialization: a cookie or authorization
      header in the output is either the censor string or a falsy value it
      already had. */
  lemma NoCredentialLeaks(req: Request, key: string)
    requires IsCredentialHeader(key) && key in req.headers
    ensures var out := SerializeRequest(req).headers[key];
      out == Text(Censor) || (!Truthy(out) && out == req.headers[key])
  {
  }

  /** Redacting the already-redacted headers changes nothing. */
  lemma RedactIdempotent(h: Headers)
    ensures RedactHeaders(RedactHeaders(h)) == RedactHeaders(h)
  {
    var once := RedactHeaders(h);
    var twice := RedactHeaders(once);
    assert Truthy(Text(Censor));
    forall k | k in once ensures twice[k] == once[k] {
    }
  }

  /** Serializing the request again from its logged form gives the same log entry. */
  lemma SerializeRequestIdempotent(req: Request, extra: map<string, string>)
    ensures var out := SerializeRequest(req);
      SerializeRequest(Request(out.httpMethod, out.url, out.headers, extra)) == out
  {
    RedactIdempotent(req.headers);
  }

  /** The logged response depends on the status code alone: two responses with
      the same status log the same entry, and that entry carries the status. */
  lemma ResponseLogIsStatusOnly(a: Response, b: Response)
    ensures SerializeResponse(a).statusCode == a.statusCode
    ensures a.statusCode == b.statusCode <==> SerializeResponse(a) == SerializeResponse(b)
  {
  }
}
