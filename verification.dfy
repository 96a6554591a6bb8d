/**
 * The webhook subscription handshake (GET /webhook): the platform proves it
 * knows the shared secret and the bot echoes its challenge.
 */
module Verification {
  import opened Messenger

  const WrongTokenBody: string := "Error, wrong validation token"

  /**
   * The decision of VerificationHandler on the three query parameters
   * `hub.challenge`, `hub.mode`, `hub.verify_token` (absent ones read as "")
   * and the configured secret `expected`.
   */
  function VerificationHandler(challenge: string, mode: string, token: string, expected: string): (r: Response)
    ensures r == Written(200, challenge) <==> mode != "" && token == expected
    ensures r != Written(200, challenge) ==> r == Written(404, WrongTokenBody)
  {
    if mode != "" && token == expected then Written(200, challenge) else Written(404, WrongTokenBody)
  }

  /** The usual subscribe request with the right secret is answered with the
      challenge verbatim. */
  lemma SubscribeAccepted(challenge: string, expected: string)
    ensures VerificationHandler(challenge, "subscribe", expected, expected) == Written(200, challenge)
  {
  }

  /** Any other token is refused, whatever the mode; the comparison is exact,
      so a token that differs from the secret only in letter case is refused. */
  lemma WrongTokenRefused(challenge: string, mode: string, token: string, expected: string)
    requires token != expected
    ensures VerificationHandler(challenge, mode, token, expected) == Written(404, WrongTokenBody)
  {
  }

  lemma CaseMattersForTheToken()
    ensures VerificationHandler("c", "subscribe", "Secret", "secret") == Written(404, WrongTokenBody)
  {
    assert "Secret"[0] != "secret"[0];
  }
}
