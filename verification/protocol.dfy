/**
 * What both client variants share: the response shape returned to callers,
 * the outbound verification request, the fixed URLs, the header lookup and
 * the abstraction of one `fetch` attempt.
 */
module Protocol {
  import opened Wrappers
  import Js

  const DefaultBaseUrl: string := "https://api.typeauth.com"
  const DefaultTokenHeader: string := "Authorization"
  const AuthenticatePath: string := "/authenticate"
  const BearerPrefix: string := "Bearer "

  const MissingTokenMessage: string := "Missing token"
  const MissingTokenDocs: string := "https://docs.typeauth.com/errors/missing-token"
  const AuthenticationDocs: string := "https://docs.typeauth.com/errors/authentication"
  const AuthenticationFailedMessage: string := "Typeauth authentication failed"

  /** The `error` member of a response. */
  datatype ErrorInfo = ErrorInfo(message: string, docs: string)

  /** `TypeauthResponse<boolean>`: two optional members, `result` and `error`. */
  datatype TypeauthResponse = TypeauthResponse(result: Option<bool>, error: Option<ErrorInfo>)

  /** Exactly one of `result` and `error` is set. */
  predicate Exclusive(r: TypeauthResponse)
  {
    r.result.Some? != r.error.Some?
  }

  function Failure(message: string, docs: string): (r: TypeauthResponse)
    ensures Exclusive(r) && r.error == Some(ErrorInfo(message, docs))
  {
    TypeauthResponse(None, Some(ErrorInfo(message, docs)))
  }

  const Authenticated: TypeauthResponse := TypeauthResponse(Some(true), None)
  const MissingTokenResponse: TypeauthResponse := Failure(MissingTokenMessage, MissingTokenDocs)

  /** Inbound headers, keyed by lower-cased header names. */
  type Headers = map<string, string>

  /**
   * Looks a header up by name; the name is lower-cased first, so the lookup
   * is insensitive to the case of the configured name.
   */
  function Lookup(h: Headers, name: string): (v: Option<string>)
    ensures v.Some? <==> Js.ToLower(name) in h
    ensures v.Some? ==> v.value == h[Js.ToLower(name)]
  {
    var key := Js.ToLower(name);
    if key in h then Some(h[key]) else None
  }

  /** The default header name is looked up under the key `authorization`. */
  lemma AuthorizationKey()
    ensures Js.ToLower(DefaultTokenHeader) == "authorization"
  {
  }

  /** Configuring a header name in any letter case finds the same header. */
  lemma LookupIgnoresCase(h: Headers, name: string)
    ensures Lookup(h, Js.ToLower(name)) == Lookup(h, name)
  {
    Js.ToLowerIdempotent(name);
  }

  /** The JSON body POSTed to the service; `telemetry` absent means the key is omitted. */
  datatype AuthBody<T> = AuthBody(token: string, appID: string, telemetry: Option<T>)

  /** One outbound call: target URL, HTTP method (`method`), headers and body. */
  datatype OutboundRequest<T> =
    OutboundRequest(url: string, httpMethod: string, headers: map<string, string>, body: AuthBody<T>)

  /** The request both variants send: `POST {baseUrl}/authenticate` with a JSON content type. */
  function VerificationRequest<T>(baseUrl: string, body: AuthBody<T>): (q: OutboundRequest<T>)
    ensures q.url == baseUrl + "/authenticate" && q.httpMethod == "POST"
    ensures q.headers == map["Content-Type" := "application/json"]
    ensures q.body == body
  {
    OutboundRequest(baseUrl + AuthenticatePath, "POST", map["Content-Type" := "application/json"], body)
  }

  /** `response.ok`: the status lies in 200-299. */
  predicate IsOk(status: nat)
  {
    200 <= status <= 299
  }

  /**
   * What one `fetch` attempt does: it throws, or it yields a response with a
   * status and a body that `response.json()` either parses (`Some`) or fails
   * on (`None`).
   */
  datatype Outcome<P> = Thrown | Responded(status: nat, body: Option<P>)

  /** How the code inside `try` ends an attempt. */
  datatype Step<P> = Received(payload: P) | Refused(code: nat) | Failed

  /**
   * The `try` block of an attempt: an ok response whose body parses is
   * received, a non-ok response is refused with its status (its body is never
   * read), and everything else, a throw from `fetch` or from `json()`,
   * reaches the `catch`.
   */
  function Settle<P>(o: Outcome<P>): (s: Step<P>)
    ensures s.Received? <==> o.Responded? && IsOk(o.status) && o.body.Some?
    ensures s.Received? ==> s.payload == o.body.value
    ensures s.Refused? <==> o.Responded? && !IsOk(o.status)
    ensures s.Refused? ==> s.code == o.status
  {
    match o
    case Thrown => Failed
    case Responded(status, body) =>
      if !IsOk(status) then Refused(status)
      else if body.Some? then Received(body.value)
      else Failed
  }
}
