/**
 * The Fetch-API client (`typeauth.ts`): fewer options, a token read through
 * `Headers.get`, a body with reduced telemetry, and a single network attempt
 * whose outcome is interpreted on the spot.
 */
module WebClient {
  import opened Wrappers
  import Js
  import opened Protocol

  const StatusFailurePrefix: string := "Typeauth authentication failed with status: "
  const NetworkErrorMessage: string := "Network error"
  const NetworkDocs: string := "https://docs.typeauth.com/errors/network"

  /** `TypeauthOptions` of this variant: no retry settings. */
  datatype Options = Options(
    appId: string,
    baseUrl: Option<string>,
    tokenHeader: Option<string>,
    disableTelemetry: Option<bool>)

  /** The readonly fields of a constructed client. */
  datatype Config = Config(baseUrl: string, appId: string, tokenHeader: string, disableTelemetry: bool)

  /** The constructor: `||` replaces a missing or falsy option by its default. */
  function Construct(o: Options): (c: Config)
    ensures c.appId == o.appId
    ensures !Js.TruthyString(o.baseUrl) ==> c.baseUrl == "https://api.typeauth.com"
    ensures Js.TruthyString(o.baseUrl) ==> c.baseUrl == o.baseUrl.value
    ensures !Js.TruthyString(o.tokenHeader) ==> c.tokenHeader == "Authorization"
    ensures Js.TruthyString(o.tokenHeader) ==> c.tokenHeader == o.tokenHeader.value
    ensures c.disableTelemetry <==> o.disableTelemetry == Some(true)
    // no defaulted string field (baseUrl, tokenHeader) is empty
    ensures c.baseUrl != "" && c.tokenHeader != ""
  {
    Config(
      Js.OrString(o.baseUrl, DefaultBaseUrl),
      o.appId,
      Js.OrString(o.tokenHeader, DefaultTokenHeader),
      Js.OrBool(o.disableTelemetry, false))
  }

  /** The parts of a Fetch-API `Request` the client reads. */
  datatype Request = Request(url: string, httpMethod: string, headers: Headers)

  /** The telemetry object of this variant: no address and no timestamp. */
  datatype Telemetry = Telemetry(url: string, httpMethod: string, headers: Headers)

  /**
   * `extractTokenFromRequest`: `headers.get(tokenHeader)`, with the `Bearer `
   * prefix removed once when the configured name is exactly `Authorization`;
   * any other value, an empty one or none at all, is passed on as it is.
   */
  function ExtractToken(tokenHeader: string, headers: Headers): (t: Option<string>)
    ensures var v := Lookup(headers, tokenHeader);
      Js.TruthyString(v) && tokenHeader == "Authorization" && Js.StartsWith(v.value, BearerPrefix) ==>
        t == Some(v.value[|BearerPrefix|..]) && v.value == BearerPrefix + t.value
    ensures var v := Lookup(headers, tokenHeader);
      !(Js.TruthyString(v) && tokenHeader == "Authorization" && Js.StartsWith(v.value, BearerPrefix)) ==>
        t == v
  {
    var token := Lookup(headers, tokenHeader);
    if Js.TruthyString(token) && tokenHeader == "Authorization" && Js.StartsWith(token.value, BearerPrefix) then
      Js.StartsWithIff(token.value, BearerPrefix);
      Some(token.value[7..])
    else token
  }

  /** The JSON body; telemetry carries url, method and headers, and is omitted when disabled. */
  function BuildBody(c: Config, token: string, req: Request): (b: AuthBody<Telemetry>)
    ensures b.token == token && b.appID == c.appId
    ensures b.telemetry.None? <==> c.disableTelemetry
    ensures b.telemetry.Some? ==>
      && b.telemetry.value.url == req.url
      && b.telemetry.value.httpMethod == req.httpMethod
      && b.telemetry.value.headers == req.headers
  {
    AuthBody(token, c.appId, if c.disableTelemetry then None else Some(Telemetry(req.url, req.httpMethod, req.headers)))
  }

  /** The flat JSON reply this variant expects. */
  datatype FlatVerdict = FlatVerdict(success: bool, valid: bool)

  /** What one call to `authenticate` returns, and the request it sent, if any. */
  datatype Call = Call(response: TypeauthResponse, sent: Option<OutboundRequest<Telemetry>>)

  /** The error a non-ok status produces. */
  function StatusFailureMessage(status: nat): string
  {
    StatusFailurePrefix + Js.DecimalString(status)
  }

  /**
   * `authenticate` with the single attempt's outcome given: no token means no
   * request; otherwise one request is sent and its outcome decides: a throw
   * (from `fetch` or from `json()`) is a network error, a non-ok status an
   * authentication error naming the status, and an ok reply succeeds iff both
   * `success` and `valid` hold.
   */
  function Authenticate(c: Config, req: Request, outcome: Outcome<FlatVerdict>): (call: Call)
    ensures Exclusive(call.response)
    ensures var token := ExtractToken(c.tokenHeader, req.headers);
      !Js.TruthyString(token) ==> call.response == MissingTokenResponse && call.sent == None
    ensures var token := ExtractToken(c.tokenHeader, req.headers);
      Js.TruthyString(token) ==> call.sent == Some(VerificationRequest(c.baseUrl, BuildBody(c, token.value, req)))
    ensures call.response.result.Some? <==>
      && Js.TruthyString(ExtractToken(c.tokenHeader, req.headers))
      && Settle(outcome).Received? && Settle(outcome).payload.success && Settle(outcome).payload.valid
    ensures call.response.result.Some? ==> call.response.result.value
    ensures call.sent.Some? && Settle(outcome).Failed? ==>
      call.response.error == Some(ErrorInfo("Network error", "https://docs.typeauth.com/errors/network"))
    ensures call.sent.Some? && Settle(outcome).Refused? ==>
      call.response.error == Some(ErrorInfo(StatusFailureMessage(outcome.status), AuthenticationDocs))
    ensures call.sent.Some? && Settle(outcome).Received? && call.response.error.Some? ==>
      call.response.error.value == ErrorInfo("Typeauth authentication failed", AuthenticationDocs)
  {
    var token := ExtractToken(c.tokenHeader, req.headers);
    if !Js.TruthyString(token) then Call(MissingTokenResponse, None)
    else
      var sent := Some(VerificationRequest(c.baseUrl, BuildBody(c, token.value, req)));
      match outcome
      case Thrown => Call(Failure(NetworkErrorMessage, NetworkDocs), sent)
      case Responded(status, body) =>
        if !IsOk(status) then Call(Failure(StatusFailureMessage(status), AuthenticationDocs), sent)
        else if body.None? then Call(Failure(NetworkErrorMessage, NetworkDocs), sent)
        else if !body.value.success || !body.value.valid then
          Call(Failure(AuthenticationFailedMessage, AuthenticationDocs), sent)
        else Call(Authenticated, sent)
  }
}
