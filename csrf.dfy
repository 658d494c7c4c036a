/** Cross-site request forgery protection: one random token per session,
    created the first time it is needed and never replaced, exposed to the
    templates, and compared with the `_csrf` field of every write request
    that is not a multipart upload. */
module Csrf {
  import opened Wrappers
  import opened Text

  const BadTokenCode: string := "EBADCSRFTOKEN"
  const BadTokenMessage: string := "Form expired or invalid. Please try again."

  /** The error `verifyCsrf` passes on, or none. */
  datatype CsrfError = CsrfError(code: string, message: string)

  /** A present, non-empty string: the truthiness test the source applies. */
  predicate Truthy(s: Option<string>) {
    s.Some? && s.value != ""
  }

  /** `verifyCsrf`: the sent token must be present, the session's token must
      be present, and they must be equal. */
  function VerifyCsrf(sent: Option<string>, expected: Option<string>): (r: Option<CsrfError>)
    ensures r.None? <==> Truthy(sent) && Truthy(expected) && sent == expected
    ensures r.Some? ==> r.value == CsrfError(BadTokenCode, BadTokenMessage)
  {
    if !Truthy(sent) || !Truthy(expected) || sent.value != expected.value then
      Some(CsrfError(BadTokenCode, BadTokenMessage))
    else None
  }

  const WriteMethods: seq<string> := ["POST", "PUT", "PATCH", "DELETE"]

  /** The global gate: reads pass, multipart writes pass (their routes check
      the token after parsing the body), other writes must carry the token. */
  function WriteGate(httpMethod: string, contentType: Option<string>, sent: Option<string>,
                     expected: Option<string>): (r: Option<CsrfError>)
    ensures httpMethod !in WriteMethods ==> r.None?
    ensures StartsWith(contentType.GetOr(""), "multipart/form-data") ==> r.None?
    ensures httpMethod in WriteMethods && !StartsWith(contentType.GetOr(""), "multipart/form-data") ==>
      r == VerifyCsrf(sent, expected)
  {
    if httpMethod !in WriteMethods then None
    else if StartsWith(contentType.GetOr(""), "multipart/form-data") then None
    else VerifyCsrf(sent, expected)
  }

  /** A write request that is not multipart is let through exactly when it
      carries the session's own non-empty token. */
  lemma GateAcceptsOnlyTheToken(httpMethod: string, contentType: Option<string>, sent: Option<string>,
                                expected: Option<string>)
    requires httpMethod in WriteMethods && !StartsWith(contentType.GetOr(""), "multipart/form-data")
    ensures WriteGate(httpMethod, contentType, sent, expected).None? <==>
      expected.Some? && expected.value != "" && sent == expected
  {
  }

  /** The session fields the token middleware writes. `token` is
      `session.csrfToken` (`None` when unset). */
  class CsrfSession {
    var initialised: bool
    var token: Option<string>

    constructor ()
      ensures !initialised && token == None
    {
      initialised := false;
      token := None;
    }
  }

  /** `csrfToken`: with a session (`session != null`), the session is
      marked, a token is drawn (`randomHex`) only when none is set, and the
      template variable receives the session's token; without one nothing is
      set and no token is exposed. */
  method IssueToken(session: CsrfSession?, randomHex: string) returns (local: Option<string>)
    modifies session
    ensures session == null ==> local.None?
    ensures session != null ==>
      session.initialised &&
      (Truthy(old(session.token)) ==> session.token == old(session.token)) &&
      (!Truthy(old(session.token)) ==> session.token == Some(randomHex)) &&
      local == session.token
  {
    if session == null {
      return None;
    }
    session.initialised := true;
    if !Truthy(session.token) {
      session.token := Some(randomHex);
    }
    local := session.token;
  }

  /** A freshly drawn token (64 hex digits, so non-empty) is accepted when sent
      back, and nothing else is. */
  lemma FreshTokenAccepted(randomHex: string, sent: Option<string>)
    requires randomHex != ""
    ensures VerifyCsrf(sent, Some(randomHex)).None? <==> sent == Some(randomHex)
  {
  }
}
