# typeauth client — a Dafny model

The typeauth client authenticates an inbound HTTP request. It reads a bearer
token from a configurable header, POSTs a verification body (token, app id and
optional telemetry) to `{baseUrl}/authenticate`, and turns the service's reply
into either `{result: true}` or `{error: {message, docs}}`. The repository has
two variants, modelled side by side:

- `src/index.ts` (module `NodeClient`, file `node_client.dfy`): a Node.js
  client over `IncomingMessage`, with full telemetry and a private `fetch` that
  retries thrown attempts up to `maxRetries` times with a fixed `retryDelay`.
- `typeauth.ts` (module `WebClient`, file `web_client.dfy`): a Fetch-API
  client over `Request`, with reduced telemetry and a single attempt.

Shared pieces live in `protocol.dfy` (`Protocol`: the response record, the
outbound request, the header lookup, the fixed URLs, and `Settle`, the `try`
block of one attempt), `js.dfy` (`Js`: truthiness and `||` defaulting,
`startsWith`, `toLowerCase`, decimal rendering of a status code) and
`wrappers.dfy` (`Option`, standing for `undefined`/`null`). `variants.dfy`
relates the two variants.

The network is replaced by its outcomes: an attempt either throws or answers
with a status and a body that `response.json()` parses (`Some`) or fails on
(`None`). In both files the `json()` call sits inside the `try`, so an ok
response with an unreadable body behaves like a thrown attempt (retried in
`src/index.ts`, a network error in `typeauth.ts`). The Node retry loop is a
method, `NodeClient.Fetch`, proved equal to the recursive specification
`NodeClient.FetchFrom`. Each attempt reads the next element of an outcome
sequence, and the method counts the attempts and the `retryDelay` sleeps.
`Date.now()` and the socket's remote address are parameters.
`maxRetries` and `retryDelay` are JavaScript numbers. A supplied `0`, `-0` or
NaN falls back to the default, and a negative or fractional value is kept.
That is why the loop's final `Unexpected error occurred` branch can be
reached (`NodeClient.FallThroughIff`).

The model follows the code: `maxRetries >= 1` is not enforced; the two
variants keep their own option sets, messages and response shapes; the
`Bearer ` prefix is stripped only when the configured name is exactly
`Authorization` (a case-sensitive comparison, while the header lookup itself
ignores case); `typeauth.ts` passes an empty header value on as `""` (and
still answers `Missing token`); and a header value of exactly `Bearer ` yields
the empty token, which is then answered with `Missing token` too.

## Model

| member | source | states |
|---|---|---|
| `NodeClient.Construct` | src/index.ts:41-48 | each option is kept when truthy and otherwise replaced by its default (`https://api.typeauth.com`, `Authorization`, `false`, 3, 1000), so `""`, `0` and NaN fall back too; `appId` is copied; no defaulted field (`baseUrl`, `tokenHeader`, `maxRetries`, `retryDelay`) is falsy |
| `NodeClient.ExtractToken` | src/index.ts:147-159 | absent or empty header gives no token; with the exact name `Authorization` a value starting with `Bearer ` loses exactly those 7 characters; otherwise the raw value is returned |
| `NodeClient.BearerTokenRoundTrip` | src/index.ts:147-156 | `Bearer <t>` under `Authorization` yields exactly `t` (so `Bearer Bearer x` yields `Bearer x`) |
| `NodeClient.LowerCaseNameKeepsPrefix` | src/index.ts:151-158 | the name `authorization` finds the same header but keeps the `Bearer ` prefix |
| `NodeClient.BuildBody` | src/index.ts:62-75 | the body carries the token and `appID`; telemetry is absent iff disabled, and otherwise holds url, method, headers, the remote address or `""`, and the timestamp |
| `NodeClient.StatusMessageRoundTrip` | src/index.ts:128 | the non-ok error message starts with its fixed text and the status code can be read back from it |
| `NodeClient.AttemptLimit` | src/index.ts:116 | the number of passes `while (retries < maxRetries)` allows: the least count reaching `maxRetries`, equal to it when it is a non-negative whole number |
| `NodeClient.Fetch` | src/index.ts:108-145 | the loop's result, attempt count and sleep count are those of the retry specification `FetchFrom` |
| `NodeClient.AllAttemptsFail` | src/index.ts:114-140 | with a whole `maxRetries >= 1` and every attempt failing: exactly `maxRetries` attempts, one sleep fewer, and the "failed after multiple retries" error |
| `NodeClient.FirstSettledDecides` | src/index.ts:116-130 | the first attempt that does not fail ends the loop at once: `j + 1` attempts, `j` sleeps, its parsed data when ok or the status error when not |
| `NodeClient.AttemptsBounded` | src/index.ts:116-142 | attempts never exceed the loop's limit (nor a whole `maxRetries`), sleeps never exceed attempts, and a return from inside the loop comes one sleep short of the attempts |
| `NodeClient.FallThroughIff` | src/index.ts:116-144 | `Unexpected error occurred` is returned iff `maxRetries` is not a positive whole number and every allowed attempt fails; then a sleep follows every attempt |
| `NodeClient.Interpret` | src/index.ts:86-105 | exactly one of result and error; result `true` iff data arrived with `success` and a first verdict that is `valid`; errors carry the authentication docs and the transport message, the service message, or the fallback text when that message is empty |
| `NodeClient.Authenticate` | src/index.ts:50-106 | a missing or empty token gives `Missing token` with no request and no attempt; otherwise the POST to `baseUrl/authenticate` with the built body is handed to the retry loop and reported as sent exactly when the loop made at least one attempt (none when `maxRetries` is not above 0), and the answer is the interpretation of the loop's result, with its attempt and sleep counts |
| `NodeClient.DefaultClientSendsBearerToken` | src/index.test.ts:52-58 | default client and `authorization: Bearer <t>` with a non-empty `t`: the extracted token `t` is usable and is POSTed with the app id and telemetry to `https://api.typeauth.com/authenticate` |
| `NodeClient.DefaultClientAcceptsFirstReply` | src/index.test.ts:60-81 | default client and an accepting first reply: one attempt, no sleep, `{result: true}` |
| `NodeClient.DefaultClientAcceptsBearerToken` | src/index.test.ts:52-88 | default client, `authorization: Bearer <t>` with a non-empty `t` and an accepting first reply: the extracted token `t` is usable and is sent with the app id to `https://api.typeauth.com/authenticate`, one attempt, `{result: true}` |
| `WebClient.Construct` | typeauth.ts:22-27 | truthy options are kept; otherwise the defaults `https://api.typeauth.com`, `Authorization`, `false` apply; no defaulted string field is empty |
| `WebClient.ExtractToken` | typeauth.ts:93-103 | with the exact name `Authorization` a value starting with `Bearer ` loses that prefix; every other looked-up value, empty or absent included, is returned unchanged |
| `Variants.WebBearerTokenRoundTrip` | typeauth.ts:93-101 | `Bearer <t>` under `Authorization` yields exactly `t` in the web variant too, derived from the Node round trip and the agreement of the two extractors |
| `WebClient.BuildBody` | typeauth.ts:41-52 | the body carries the token and `appID`; telemetry (url, method, headers only) is absent iff disabled |
| `WebClient.Authenticate` | typeauth.ts:29-91 | exactly one of result and error; no token means `Missing token` and no request; otherwise one request: a throw gives `Network error` with the network docs, a non-ok status the status error, and an ok reply `{result: true}` iff `success` and `valid`, else `Typeauth authentication failed` |
| `Variants.ExtractorsAgree` | typeauth.ts:93-103 | the two extractors agree except on an empty header value (`null` against `""`), and always agree on whether a token is usable |
| `Variants.MissingTokenAgrees` | typeauth.ts:30-39 | a request without a usable token for the Node variant gets `Missing token` and no request from the web variant as well (for a configured name that is a valid header name) |
| `Protocol.Settle` | src/index.ts:117-131 | an attempt is received iff the status is ok and the body parses, refused with its status iff the status is not ok, and caught otherwise |
| `Protocol.VerificationRequest` | src/index.ts:77-84 | the call is a POST to `baseUrl + "/authenticate"` with a JSON content type and the given body |
| `Protocol.Lookup` | src/index.ts:148 | the header is found iff the lower-cased name is a key, and then has that key's value |
| `Protocol.LookupIgnoresCase` | typeauth.ts:94 | looking up a name and its lower-cased form finds the same header |
| `Js.ToLower` | src/index.ts:148 | lower-casing keeps the length, leaves no letter `A`-`Z`, turns each upper-case letter into its lower-case partner and keeps every other character |
| `Js.ToLowerIdempotent` | src/index.ts:148 | lower-casing twice is lower-casing once |
| `Js.StartsWithIff` | src/index.ts:154 | a string starts with a prefix iff it is that prefix followed by its remainder |
| `Js.DecimalString` | src/index.ts:128 | a status renders as a non-empty run of digits that starts with `0` only for the status 0 |
| `Js.ParseDecimalString` | src/index.ts:128 | reading the rendered digits back gives the status |
| `Js.DecimalStringInjective` | src/index.ts:128 | different statuses render differently |

## Left out

- The real `fetch`, `response.json()`, the `setTimeout` sleep and the `async` machinery: replaced by a sequence of attempt outcomes and a count of sleeps, each a `setTimeout(retryDelay)`; how long such a sleep lasts (Node raises a delay below 1 to 1 ms) is not modelled, and `retryDelay` is not read after construction.
- NodeClient.Fetch: requires the outcome sequence to cover every attempt the loop may make; the real network has no such length.
- `JSON.stringify` text layout and JSON parsing: the body and the replies are records. A reply that is not an object, or that lacks a field, is not modelled; an unparsable one is.
- `Date.now()` and `req.socket?.remoteAddress`: taken as parameters.
- Infinite `maxRetries` or `retryDelay`: numbers are finite reals or NaN. `Infinity` would let the loop run without bound while the network keeps throwing.
- Node's `string[]` header values and the combining of repeated headers by `Headers.get`: headers are a map from lower-cased names to single strings.
- `toLowerCase` beyond ASCII: only `A`-`Z` are folded.
- WebClient.ExtractToken: the `TypeError` that `Headers.get` throws for a configured `tokenHeader` that is not a valid HTTP header name (one holding a space or a non-ASCII character, say) is not modelled; the source rejects `authenticate` there, outside its `try`, while the model looks the name up and answers `Missing token`. `Variants.MissingTokenAgrees` therefore holds of the source only for valid header names; the Node variant answers `Missing token` for any name.
- A missing `appId` at run time: `appId` is always a string.
