/**
 * How the two client variants relate: their token extractors differ only on
 * an empty header value, which both then treat as a missing token.
 */
module Variants {
  import opened Wrappers
  import Js
  import opened Protocol
  import NodeClient
  import WebClient

  /**
   * The two extractors return the same token except for an empty header
   * value, which the Node variant turns into `null` and the web variant
   * passes on as `""`; either way both agree on whether a token is usable.
   */
  lemma ExtractorsAgree(tokenHeader: string, headers: Headers)
    ensures var n := NodeClient.ExtractToken(tokenHeader, headers);
      var w := WebClient.ExtractToken(tokenHeader, headers);
      && (Lookup(headers, tokenHeader) != Some("") ==> n == w)
      && (Lookup(headers, tokenHeader) == Some("") ==> n == None && w == Some(""))
      && (Js.TruthyString(n) <==> Js.TruthyString(w))
  {
  }

  /**
   * With the default header name, `Bearer <t>` yields exactly `t` in the web
   * variant as well: the Node round trip carries over because the value is
   * non-empty.
   */
  lemma WebBearerTokenRoundTrip(headers: Headers, t: string)
    ensures WebClient.ExtractToken("Authorization", headers["authorization" := BearerPrefix + t]) == Some(t)
  {
    var h := headers["authorization" := BearerPrefix + t];
    NodeClient.BearerTokenRoundTrip(headers, t);
    AuthorizationKey();
    assert Lookup(h, "Authorization") == Some(BearerPrefix + t);
    ExtractorsAgree("Authorization", h);
  }

  /**
   * A request without a usable token gets the same `Missing token` answer
   * from both variants, and neither sends anything. Headers are a map, so
   * the `TypeError` the web variant's `Headers.get` throws for an invalid
   * header name is outside this statement.
   */
  lemma MissingTokenAgrees(
    nc: NodeClient.Config, nreq: NodeClient.IncomingRequest,
    wc: WebClient.Config, wreq: WebClient.Request, outcome: Outcome<WebClient.FlatVerdict>)
    requires nc.tokenHeader == wc.tokenHeader && nreq.headers == wreq.headers
    requires !Js.TruthyString(NodeClient.ExtractToken(nc.tokenHeader, nreq.headers))
    ensures WebClient.Authenticate(wc, wreq, outcome) == WebClient.Call(MissingTokenResponse, None)
  {
    ExtractorsAgree(nc.tokenHeader, nreq.headers);
  }
}
