/**
 * The Node.js client (`src/index.ts`): options with defaults, bearer-token
 * extraction from an `IncomingMessage`, the verification body with full
 * telemetry, the retrying `fetch` loop and the interpretation of its result.
 */
module NodeClient {
  import opened Wrappers
  import Js
  import opened Protocol

  const DefaultMaxRetries: real := 3.0
  const DefaultRetryDelay: real := 1000.0

  const StatusFailurePrefix: string := "typeauth API request failed with status: "
  const RetriesExhaustedMessage: string := "typeauth API request failed after multiple retries"
  const UnexpectedErrorMessage: string := "Unexpected error occurred"

  /** `TypeauthOptions`: only `appId` is required. */
  datatype Options = Options(
    appId: string,
    baseUrl: Option<string>,
    tokenHeader: Option<string>,
    disableTelemetry: Option<bool>,
    maxRetries: Option<Js.Number>,
    retryDelay: Option<Js.Number>)

  /** The readonly fields of a constructed client. */
  datatype Config = Config(
    baseUrl: string,
    appId: string,
    tokenHeader: string,
    disableTelemetry: bool,
    maxRetries: real,
    retryDelay: real)

  /**
   * The constructor: each option falls back to its default with `||`, so a
   * supplied `""`, `false`, `0` or NaN is replaced like a missing one.
   */
  function Construct(o: Options): (c: Config)
    ensures c.appId == o.appId
    ensures !Js.TruthyString(o.baseUrl) ==> c.baseUrl == "https://api.typeauth.com"
    ensures Js.TruthyString(o.baseUrl) ==> c.baseUrl == o.baseUrl.value
    ensures !Js.TruthyString(o.tokenHeader) ==> c.tokenHeader == "Authorization"
    ensures Js.TruthyString(o.tokenHeader) ==> c.tokenHeader == o.tokenHeader.value
    ensures c.disableTelemetry <==> o.disableTelemetry == Some(true)
    ensures !Js.TruthyNumber(o.maxRetries) ==> c.maxRetries == 3.0
    ensures Js.TruthyNumber(o.maxRetries) ==> o.maxRetries == Some(Js.Finite(c.maxRetries))
    ensures !Js.TruthyNumber(o.retryDelay) ==> c.retryDelay == 1000.0
    ensures Js.TruthyNumber(o.retryDelay) ==> o.retryDelay == Some(Js.Finite(c.retryDelay))
    // no defaulted field (baseUrl, tokenHeader, maxRetries, retryDelay) is falsy
    ensures c.baseUrl != "" && c.tokenHeader != "" && c.maxRetries != 0.0 && c.retryDelay != 0.0
  {
    Config(
      Js.OrString(o.baseUrl, DefaultBaseUrl),
      o.appId,
      Js.OrString(o.tokenHeader, DefaultTokenHeader),
      Js.OrBool(o.disableTelemetry, false),
      Js.OrNumber(o.maxRetries, DefaultMaxRetries),
      Js.OrNumber(o.retryDelay, DefaultRetryDelay))
  }

  /** The parts of an `IncomingMessage` the client reads; `url` and `method` may be undefined. */
  datatype IncomingRequest = IncomingRequest(
    url: Option<string>,
    httpMethod: Option<string>,
    headers: Headers,
    remoteAddress: Option<string>)

  /** The telemetry object of the body. */
  datatype Telemetry = Telemetry(
    url: Option<string>,
    httpMethod: Option<string>,
    headers: Headers,
    ipaddress: string,
    timestamp: int)

  /**
   * `extractTokenFromRequest`: the header named `tokenHeader` (lower-cased),
   * with the `Bearer ` prefix removed once when the configured name is exactly
   * `Authorization`; an absent or empty header gives no token.
   */
  function ExtractToken(tokenHeader: string, headers: Headers): (t: Option<string>)
    ensures !Js.TruthyString(Lookup(headers, tokenHeader)) ==> t == None
    ensures var v := Lookup(headers, tokenHeader);
      Js.TruthyString(v) && tokenHeader == "Authorization" && Js.StartsWith(v.value, BearerPrefix) ==>
        t == Some(v.value[|BearerPrefix|..]) && v.value == BearerPrefix + t.value
    ensures var v := Lookup(headers, tokenHeader);
      Js.TruthyString(v) && (tokenHeader != "Authorization" || !Js.StartsWith(v.value, BearerPrefix)) ==>
        t == v
  {
    var token := Lookup(headers, tokenHeader);
    if Js.TruthyString(token) && tokenHeader == "Authorization" && Js.StartsWith(token.value, BearerPrefix) then
      Js.StartsWithIff(token.value, BearerPrefix);
      Some(token.value[7..])
    else if Js.TruthyString(token) then token
    else None
  }

  /** With the default header name, `Bearer <t>` yields exactly `t`: the prefix is stripped once. */
  lemma BearerTokenRoundTrip(headers: Headers, t: string)
    ensures ExtractToken("Authorization", headers["authorization" := BearerPrefix + t]) == Some(t)
  {
    var h := headers["authorization" := BearerPrefix + t];
    AuthorizationKey();
    assert Lookup(h, "Authorization") == Some(BearerPrefix + t);
    Js.StartsWithIff(BearerPrefix + t, BearerPrefix);
    assert (BearerPrefix + t)[|BearerPrefix|..] == t;
  }

  /**
   * Only the exact name `Authorization` strips the prefix: `authorization`
   * finds the same header but keeps `Bearer `.
   */
  lemma LowerCaseNameKeepsPrefix(t: string)
    ensures ExtractToken("authorization", map["authorization" := BearerPrefix + t]) == Some(BearerPrefix + t)
  {
    assert Js.ToLower("authorization") == "authorization";
  }

  /** The JSON body; telemetry is omitted when disabled. */
  function BuildBody(c: Config, token: string, req: IncomingRequest, now: int): (b: AuthBody<Telemetry>)
    ensures b.token == token && b.appID == c.appId
    ensures b.telemetry.None? <==> c.disableTelemetry
    ensures b.telemetry.Some? ==>
      && b.telemetry.value.url == req.url
      && b.telemetry.value.httpMethod == req.httpMethod
      && b.telemetry.value.headers == req.headers
      && b.telemetry.value.timestamp == now
      && (req.remoteAddress.None? ==> b.telemetry.value.ipaddress == "")
      && (req.remoteAddress.Some? ==> b.telemetry.value.ipaddress == req.remoteAddress.value)
  {
    AuthBody(
      token,
      c.appId,
      if c.disableTelemetry then None
      else Some(Telemetry(req.url, req.httpMethod, req.headers, req.remoteAddress.GetOr(""), now)))
  }

  /** The result of the private `fetch`: parsed data or an error message. */
  datatype FetchResult<P> = Data(data: P) | FetchError(message: string)

  /** A run of the retry loop: its result, the attempts it made and the delays it slept. */
  datatype FetchRun<P> = FetchRun(result: FetchResult<P>, attempts: nat, delays: nat)

  /** The error a non-ok status produces. */
  function StatusFailureMessage(status: nat): string
  {
    StatusFailurePrefix + Js.DecimalString(status)
  }

  /** Reads the status code back out of a status failure message. */
  function StatusOf(message: string): int
  {
    if |message| < |StatusFailurePrefix| then -1 else Js.ParseDecimal(message[|StatusFailurePrefix|..])
  }

  /** The status failure message records its status code faithfully. */
  lemma StatusMessageRoundTrip(status: nat)
    ensures StatusOf(StatusFailureMessage(status)) == status
    ensures Js.StartsWith(StatusFailureMessage(status), StatusFailurePrefix)
  {
    var m := StatusFailureMessage(status);
    assert m[|StatusFailurePrefix|..] == Js.DecimalString(status);
    Js.ParseDecimalString(status);
    Js.StartsWithIff(m, StatusFailurePrefix);
  }

  /** `x` is a whole number. */
  predicate IsWhole(x: real)
  {
    x.Floor as real == x
  }

  /**
   * How many times `while (retries < maxRetries)` can be entered with
   * `retries` counting up from 0: the least count that reaches `maxRetries`.
   */
  function AttemptLimit(maxRetries: real): (n: nat)
    ensures maxRetries <= n as real
    ensures n == 0 || ((n - 1) as real) < maxRetries
    ensures IsWhole(maxRetries) && maxRetries >= 0.0 ==> n as real == maxRetries
  {
    if maxRetries <= 0.0 then 0
    else if IsWhole(maxRetries) then maxRetries.Floor
    else maxRetries.Floor + 1
  }

  /**
   * The retry loop from the point where `retries` has the given value: the
   * next outcome is `transport[retries]`; a received body or a refusal ends
   * the loop, a failure counts a retry, ends the loop when the count reaches
   * `maxRetries` and otherwise sleeps once and continues; leaving the loop
   * without returning gives the unexpected-error result.
   */
  function FetchFrom<P>(maxRetries: real, transport: seq<Outcome<P>>, retries: nat): (run: FetchRun<P>)
    requires AttemptLimit(maxRetries) <= |transport|
    decreases AttemptLimit(maxRetries) - retries
  {
    if !((retries as real) < maxRetries) then FetchRun(FetchError(UnexpectedErrorMessage), 0, 0)
    else
      match Settle(transport[retries])
      case Received(p) => FetchRun(Data(p), 1, 0)
      case Refused(status) => FetchRun(FetchError(StatusFailureMessage(status)), 1, 0)
      case Failed =>
        if ((retries + 1) as real) == maxRetries then FetchRun(FetchError(RetriesExhaustedMessage), 1, 0)
        else
          var rest := FetchFrom(maxRetries, transport, retries + 1);
          FetchRun(rest.result, rest.attempts + 1, rest.delays + 1)
  }

  /**
   * The private `fetch`: each pass takes the next transport outcome; the
   * counters record the attempts made and the `retryDelay` sleeps taken.
   */
  method Fetch<P>(maxRetries: real, transport: seq<Outcome<P>>)
    returns (result: FetchResult<P>, attempts: nat, delays: nat)
    requires AttemptLimit(maxRetries) <= |transport|
    ensures FetchRun(result, attempts, delays) == FetchFrom(maxRetries, transport, 0)
  {
    var retries: nat := 0;
    attempts, delays := 0, 0;
    while (retries as real) < maxRetries
      invariant attempts == retries && delays == retries
      invariant var rest := FetchFrom(maxRetries, transport, retries);
        FetchFrom(maxRetries, transport, 0) == FetchRun(rest.result, rest.attempts + retries, rest.delays + retries)
      decreases AttemptLimit(maxRetries) - retries
    {
      var outcome := transport[attempts];
      attempts := attempts + 1;
      if outcome.Responded? && IsOk(outcome.status) && outcome.body.Some? {
        return Data(outcome.body.value), attempts, delays;
      } else if outcome.Responded? && !IsOk(outcome.status) {
        return FetchError(StatusFailureMessage(outcome.status)), attempts, delays;
      } else {
        // the catch block
        retries := retries + 1;
        if (retries as real) == maxRetries {
          return FetchError(RetriesExhaustedMessage), attempts, delays;
        }
        delays := delays + 1;
      }
    }
    result := FetchError(UnexpectedErrorMessage);
  }

  /** Every attempt fails from `retries` on: the loop ends by exhaustion after the remaining attempts. */
  lemma {:induction false} AllFailFrom<P>(maxRetries: real, transport: seq<Outcome<P>>, retries: nat)
    requires AttemptLimit(maxRetries) <= |transport|
    requires IsWhole(maxRetries) && (retries as real) < maxRetries
    requires forall k :: 0 <= k < AttemptLimit(maxRetries) ==> Settle(transport[k]).Failed?
    ensures FetchFrom(maxRetries, transport, retries)
      == FetchRun(FetchError(RetriesExhaustedMessage), maxRetries.Floor - retries, maxRetries.Floor - retries - 1)
    decreases AttemptLimit(maxRetries) - retries
  {
    if ((retries + 1) as real) != maxRetries {
      AllFailFrom(maxRetries, transport, retries + 1);
    }
  }

  /**
   * With a whole `maxRetries` of at least 1 and a transport that always
   * fails, the loop makes exactly `maxRetries` attempts, sleeps one time
   * fewer (never after the last attempt) and reports exhaustion.
   */
  lemma AllAttemptsFail<P>(maxRetries: real, transport: seq<Outcome<P>>)
    requires AttemptLimit(maxRetries) <= |transport|
    requires IsWhole(maxRetries) && maxRetries >= 1.0
    requires forall k :: 0 <= k < AttemptLimit(maxRetries) ==> Settle(transport[k]).Failed?
    ensures var run := FetchFrom(maxRetries, transport, 0);
      && run.result == FetchError(RetriesExhaustedMessage)
      && run.attempts as real == maxRetries
      && run.delays + 1 == run.attempts
  {
    AllFailFrom(maxRetries, transport, 0);
  }

  /** The first attempt that does not fail, reached from `retries`, decides the loop. */
  lemma {:induction false} FirstSettledFrom<P>(maxRetries: real, transport: seq<Outcome<P>>, retries: nat, j: nat)
    requires AttemptLimit(maxRetries) <= |transport|
    requires retries <= j && (j as real) < maxRetries
    requires forall k :: retries <= k < j ==> Settle(transport[k]).Failed?
    requires !Settle(transport[j]).Failed?
    ensures var run := FetchFrom(maxRetries, transport, retries);
      && run.attempts == j - retries + 1
      && run.delays == j - retries
      && (Settle(transport[j]).Received? ==> run.result == Data(Settle(transport[j]).payload))
      && (Settle(transport[j]).Refused? ==> run.result == FetchError(StatusFailureMessage(Settle(transport[j]).code)))
    decreases j - retries
  {
    if retries < j {
      FirstSettledFrom(maxRetries, transport, retries + 1, j);
    }
  }

  /**
   * When attempt `j` is the first that does not fail, the loop stops right
   * there: `j + 1` attempts, `j` sleeps, and the parsed data of an ok
   * response or the status error of a non-ok one.
   */
  lemma FirstSettledDecides<P>(maxRetries: real, transport: seq<Outcome<P>>, j: nat)
    requires AttemptLimit(maxRetries) <= |transport|
    requires (j as real) < maxRetries
    requires forall k :: 0 <= k < j ==> Settle(transport[k]).Failed?
    requires !Settle(transport[j]).Failed?
    ensures var run := FetchFrom(maxRetries, transport, 0);
      && run.attempts == j + 1
      && run.delays == j
      && (Settle(transport[j]).Received? ==> run.result == Data(Settle(transport[j]).payload))
      && (Settle(transport[j]).Refused? ==> run.result == FetchError(StatusFailureMessage(Settle(transport[j]).code)))
  {
    FirstSettledFrom(maxRetries, transport, 0, j);
  }

  /** Counting bounds of the loop from `retries` on. */
  lemma {:induction false} BoundsFrom<P>(maxRetries: real, transport: seq<Outcome<P>>, retries: nat)
    requires AttemptLimit(maxRetries) <= |transport|
    ensures var run := FetchFrom(maxRetries, transport, retries);
      && (retries <= AttemptLimit(maxRetries) ==> run.attempts + retries <= AttemptLimit(maxRetries))
      && run.delays <= run.attempts
      && (run.result != FetchError(UnexpectedErrorMessage) ==> run.delays + 1 == run.attempts)
    decreases AttemptLimit(maxRetries) - retries
  {
    if (retries as real) < maxRetries && Settle(transport[retries]).Failed? && ((retries + 1) as real) != maxRetries {
      BoundsFrom(maxRetries, transport, retries + 1);
    }
  }

  /**
   * The loop never makes more than `maxRetries` attempts (rounded up), never
   * sleeps more often than it attempts, and sleeps exactly once less than it
   * attempts whenever it returns from inside the loop.
   */
  lemma AttemptsBounded<P>(maxRetries: real, transport: seq<Outcome<P>>)
    requires AttemptLimit(maxRetries) <= |transport|
    ensures var run := FetchFrom(maxRetries, transport, 0);
      && run.attempts <= AttemptLimit(maxRetries)
      && (IsWhole(maxRetries) && maxRetries >= 0.0 ==> (run.attempts as real) <= maxRetries)
      && run.delays <= run.attempts
      && (run.result != FetchError(UnexpectedErrorMessage) ==> run.delays + 1 == run.attempts)
  {
    BoundsFrom(maxRetries, transport, 0);
  }

  /** The fall-through condition, from `retries` on. */
  lemma {:induction false} FallThroughFrom<P>(maxRetries: real, transport: seq<Outcome<P>>, retries: nat)
    requires AttemptLimit(maxRetries) <= |transport|
    requires retries <= AttemptLimit(maxRetries)
    requires IsWhole(maxRetries) && maxRetries > 0.0 ==> retries < AttemptLimit(maxRetries)
    ensures var run := FetchFrom(maxRetries, transport, retries);
      (run.result == FetchError(UnexpectedErrorMessage)) <==>
        && (!IsWhole(maxRetries) || maxRetries <= 0.0)
        && (forall k :: retries <= k < AttemptLimit(maxRetries) ==> Settle(transport[k]).Failed?)
    ensures var run := FetchFrom(maxRetries, transport, retries);
      run.result == FetchError(UnexpectedErrorMessage) ==>
        run.attempts == run.delays == AttemptLimit(maxRetries) - retries
    decreases AttemptLimit(maxRetries) - retries
  {
    if (retries as real) < maxRetries {
      match Settle(transport[retries])
      case Received(_) =>
      case Refused(_) =>
      case Failed =>
        if ((retries + 1) as real) != maxRetries {
          FallThroughFrom(maxRetries, transport, retries + 1);
        }
    }
  }

  /**
   * The final `Unexpected error occurred` is reached exactly when
   * `maxRetries` is not a positive whole number and every attempt the loop
   * allows fails; it then sleeps after every attempt, the last one included.
   * A whole `maxRetries` of at least 1 never reaches it, and a non-positive
   * one reaches it without any attempt.
   */
  lemma FallThroughIff<P>(maxRetries: real, transport: seq<Outcome<P>>)
    requires AttemptLimit(maxRetries) <= |transport|
    ensures var run := FetchFrom(maxRetries, transport, 0);
      (run.result == FetchError(UnexpectedErrorMessage)) <==>
        && (!IsWhole(maxRetries) || maxRetries <= 0.0)
        && (forall k :: 0 <= k < AttemptLimit(maxRetries) ==> Settle(transport[k]).Failed?)
    ensures var run := FetchFrom(maxRetries, transport, 0);
      run.result == FetchError(UnexpectedErrorMessage) ==> run.attempts == run.delays == AttemptLimit(maxRetries)
  {
    FallThroughFrom(maxRetries, transport, 0);
  }

  /** The service's JSON reply. */
  datatype RateLimit = RateLimit(remaining: int)
  datatype Verdict = Verdict(valid: bool, ratelimit: RateLimit, remaining: int, enabled: bool)
  datatype AuthenticateResponse = AuthenticateResponse(success: bool, message: string, data: seq<Verdict>)

  /** `data?.success && data?.data?.[0]?.valid`: only the first verdict is consulted. */
  predicate Accepted(d: AuthenticateResponse)
  {
    d.success && |d.data| > 0 && d.data[0].valid
  }

  /** Turns the result of `fetch` into the caller's response. */
  function Interpret(f: FetchResult<AuthenticateResponse>): (r: TypeauthResponse)
    ensures Exclusive(r)
    ensures r.result.Some? <==> f.Data? && Accepted(f.data)
    ensures r.result.Some? ==> r.result.value
    ensures r.error.Some? ==> r.error.value.docs == AuthenticationDocs
    ensures f.FetchError? ==> r.error.value.message == f.message
    ensures f.Data? && !Accepted(f.data) && f.data.message != "" ==> r.error.value.message == f.data.message
    ensures f.Data? && !Accepted(f.data) && f.data.message == "" ==>
      r.error.value.message == "Typeauth authentication failed"
  {
    match f
    case FetchError(message) => Failure(message, AuthenticationDocs)
    case Data(d) =>
      if Accepted(d) then Authenticated
      else Failure(Js.OrString(Some(d.message), AuthenticationFailedMessage), AuthenticationDocs)
  }

  /**
   * `authenticate`: a missing token answers at once without any attempt;
   * otherwise the body is handed to the retry loop and its result
   * interpreted. `sent` is the request the global `fetch` was called with,
   * `None` when it was never called (no usable token, or a `maxRetries`
   * that lets the loop make no attempt). `now` is `Date.now()`.
   */
  method Authenticate(c: Config, req: IncomingRequest, now: int, transport: seq<Outcome<AuthenticateResponse>>)
    returns (response: TypeauthResponse, sent: Option<OutboundRequest<Telemetry>>, attempts: nat, delays: nat)
    requires AttemptLimit(c.maxRetries) <= |transport|
    ensures Exclusive(response)
    ensures !Js.TruthyString(ExtractToken(c.tokenHeader, req.headers)) ==>
      response == MissingTokenResponse && sent == None && attempts == 0 && delays == 0
    ensures sent.Some? <==> Js.TruthyString(ExtractToken(c.tokenHeader, req.headers)) && attempts > 0
    ensures var token := ExtractToken(c.tokenHeader, req.headers);
      Js.TruthyString(token) ==>
        var run := FetchFrom(c.maxRetries, transport, 0);
        && sent == (if run.attempts > 0 then Some(VerificationRequest(c.baseUrl, BuildBody(c, token.value, req, now))) else None)
        && response == Interpret(run.result)
        && attempts == run.attempts && delays == run.delays
  {
    var token := ExtractToken(c.tokenHeader, req.headers);
    if !Js.TruthyString(token) {
      return MissingTokenResponse, None, 0, 0;
    }
    var request := VerificationRequest(c.baseUrl, BuildBody(c, token.value, req, now));
    var result;
    result, attempts, delays := Fetch(c.maxRetries, transport);
    response := Interpret(result);
    sent := if attempts > 0 then Some(request) else None;
  }

  /**
   * The default client and a request carrying `authorization: Bearer <token>`
   * with a non-empty token: the token is usable and is sent without its
   * prefix, with the configured `appID`, to
   * `https://api.typeauth.com/authenticate`.
   */
  lemma DefaultClientSendsBearerToken(appId: string, token: string, req: IncomingRequest, now: int)
    requires token != ""
    requires req.headers == map["authorization" := BearerPrefix + token]
    ensures var c := Construct(Options(appId, None, None, None, None, None));
      var q := VerificationRequest(c.baseUrl, BuildBody(c, token, req, now));
      && ExtractToken(c.tokenHeader, req.headers) == Some(token)
      && Js.TruthyString(ExtractToken(c.tokenHeader, req.headers))
      && q.url == "https://api.typeauth.com/authenticate" && q.httpMethod == "POST"
      && q.body.token == token && q.body.appID == appId
      && q.body.telemetry.Some?
  {
    var c := Construct(Options(appId, None, None, None, None, None));
    assert c.tokenHeader == "Authorization" && c.baseUrl == DefaultBaseUrl;
    assert ExtractToken(c.tokenHeader, req.headers) == Some(token) by {
      BearerTokenRoundTrip(map[], token);
    }
    assert DefaultBaseUrl + "/authenticate" == "https://api.typeauth.com/authenticate";
  }

  /**
   * The default client and a service that accepts on the first attempt:
   * a single attempt, no sleep, and the answer `{result: true}`.
   */
  lemma DefaultClientAcceptsFirstReply(appId: string, rest: seq<Outcome<AuthenticateResponse>>)
    requires |rest| >= 2
    ensures var c := Construct(Options(appId, None, None, None, None, None));
      var reply := AuthenticateResponse(true, "", [Verdict(true, RateLimit(0), 0, true)]);
      var run := FetchFrom(c.maxRetries, [Responded(200, Some(reply))] + rest, 0);
      && run == FetchRun(Data(reply), 1, 0)
      && Interpret(run.result) == Authenticated
  {
    var c := Construct(Options(appId, None, None, None, None, None));
    assert c.maxRetries == 3.0;
    var reply := AuthenticateResponse(true, "", [Verdict(true, RateLimit(0), 0, true)]);
    var t := [Responded(200, Some(reply))] + rest;
    assert Settle(t[0]) == Received(reply);
    FirstSettledDecides(3.0, t, 0);
  }

  /**
   * The default client, a request carrying `authorization: Bearer <token>`
   * with a non-empty token, and a service that accepts on the first attempt:
   * the token is sent without its prefix, with the configured `appID`, to
   * `https://api.typeauth.com/authenticate`, and the answer is
   * `{result: true}` after a single attempt and no sleep.
   */
  lemma DefaultClientAcceptsBearerToken(
    appId: string, token: string, req: IncomingRequest, now: int, rest: seq<Outcome<AuthenticateResponse>>)
    requires token != ""
    requires req.headers == map["authorization" := BearerPrefix + token]
    requires |rest| >= 2
    ensures var c := Construct(Options(appId, None, None, None, None, None));
      var reply := AuthenticateResponse(true, "", [Verdict(true, RateLimit(0), 0, true)]);
      var run := FetchFrom(c.maxRetries, [Responded(200, Some(reply))] + rest, 0);
      var q := VerificationRequest(c.baseUrl, BuildBody(c, token, req, now));
      && ExtractToken(c.tokenHeader, req.headers) == Some(token)
      && Js.TruthyString(ExtractToken(c.tokenHeader, req.headers))
      && run == FetchRun(Data(reply), 1, 0)
      && Interpret(run.result) == Authenticated
      && q.url == "https://api.typeauth.com/authenticate" && q.httpMethod == "POST"
      && q.body.token == token && q.body.appID == appId
      && q.body.telemetry.Some?
  {
    DefaultClientSendsBearerToken(appId, token, req, now);
    DefaultClientAcceptsFirstReply(appId, rest);
  }
}
