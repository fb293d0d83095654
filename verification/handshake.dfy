/**
 * The subscription handshake: the platform proves it is talking to the right
 * endpoint by sending the shared verify token, and the endpoint proves it is
 * alive by echoing the challenge back.
 */
module Handshake {
  import opened Wrappers
  import opened Settings

  /** A plain-text HTTP response. */
  datatype PlainText = PlainText(statusCode: int, text: string)

  const FailureText: string := "Verification failed"

  /** Python's `s or ""` for an optional string. */
  function OrEmpty(s: Option<string>): string {
    if s.Some? && s.value != "" then s.value else ""
  }

  /**
   * The handshake decision on the three (possibly absent) query arguments:
   * only mode `subscribe` together with the configured token is accepted.
   */
  function Verify(cfg: Config, mode: Option<string>, token: Option<string>, challenge: Option<string>): (r: PlainText)
    ensures r.statusCode == 200 <==> mode == Some("subscribe") && token == Some(cfg.verifyToken)
    ensures r.statusCode == 200 ==> r.text == challenge.GetOr("")
    ensures r.statusCode != 200 ==> r == PlainText(403, FailureText)
  {
    if mode == Some("subscribe") && token == Some(cfg.verifyToken) then PlainText(200, OrEmpty(challenge))
    else PlainText(403, FailureText)
  }

  /**
   * The challenge never influences the decision, and a request without the
   * configured token is refused whatever its mode.
   */
  lemma ChallengeDoesNotAuthorize(cfg: Config, mode: Option<string>, token: Option<string>, c1: Option<string>, c2: Option<string>)
    ensures Verify(cfg, mode, token, c1).statusCode == Verify(cfg, mode, token, c2).statusCode
    ensures token != Some(cfg.verifyToken) ==> Verify(cfg, mode, token, c1) == PlainText(403, FailureText)
  {
  }

  /** A query argument, absent when the request has no parameter of that name. */
  function Arg(query: map<string, string>, name: string): Option<string> {
    if name in query then Some(query[name]) else None
  }

  /** The query string the platform sends to start a subscription. */
  function PlatformQuery(token: string, challenge: string): map<string, string> {
    map["hub.mode" := "subscribe", "hub.verify_token" := token, "hub.challenge" := challenge]
  }

  /**
   * The handshake endpoint as declared: the web framework binds each handler
   * argument to the query parameter of the same name, so the arguments read
   * `hub_mode`, `hub_verify_token` and `hub_challenge`.
   */
  function VerifyQueryAsDeclared(cfg: Config, query: map<string, string>): (r: PlainText)
    ensures r.statusCode == 200 <==>
              "hub_mode" in query && query["hub_mode"] == "subscribe"
              && "hub_verify_token" in query && query["hub_verify_token"] == cfg.verifyToken
    ensures "hub_mode" !in query ==> r == PlainText(403, FailureText)
  {
    Verify(cfg, Arg(query, "hub_mode"), Arg(query, "hub_verify_token"), Arg(query, "hub_challenge"))
  }

  /** The platform's own handshake is refused by the endpoint as declared, even with the right token. */
  lemma PlatformHandshakeRefusedAsDeclared(cfg: Config, challenge: string)
    ensures VerifyQueryAsDeclared(cfg, PlatformQuery(cfg.verifyToken, challenge)) == PlainText(403, FailureText)
  {
    assert "hub_mode" !in PlatformQuery(cfg.verifyToken, challenge);
  }

  /**
   * The handshake endpoint with its arguments bound to the parameter names the
   * platform uses: `hub.mode`, `hub.verify_token` and `hub.challenge`.
   */
  function VerifyQuery(cfg: Config, query: map<string, string>): (r: PlainText)
    ensures r.statusCode == 200 <==>
              "hub.mode" in query && query["hub.mode"] == "subscribe"
              && "hub.verify_token" in query && query["hub.verify_token"] == cfg.verifyToken
    ensures r.statusCode == 200 ==> r.text == if "hub.challenge" in query then query["hub.challenge"] else ""
    ensures r.statusCode != 200 ==> r == PlainText(403, FailureText)
  {
    Verify(cfg, Arg(query, "hub.mode"), Arg(query, "hub.verify_token"), Arg(query, "hub.challenge"))
  }

  /** The platform's handshake succeeds exactly when it carries the configured token, and echoes its challenge. */
  lemma PlatformHandshakeAccepted(cfg: Config, token: string, challenge: string)
    ensures VerifyQuery(cfg, PlatformQuery(token, challenge)).statusCode == 200 <==> token == cfg.verifyToken
    ensures token == cfg.verifyToken ==> VerifyQuery(cfg, PlatformQuery(token, challenge)) == PlainText(200, challenge)
  {
  }
}
