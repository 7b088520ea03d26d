/**
 * The credential gate (app.py:53-62). With no key configured every request
 * passes; otherwise the `X-API-Key` header must be present, non-empty, at
 * most 256 characters long and equal to the configured key.
 */
module Auth {
  import opened Wrappers
  import opened Config
  import opened Responses

  /** The verdict of a gate: let the request through, or answer it now. */
  datatype Gate = Allow | Reject(response: Response)

  const MAX_KEY_HEADER_LENGTH: int := 256

  /**
   * The gate as the rest of the model uses it: `hmac.compare_digest` is read
   * as plain string equality (its constant timing is not modelled).
   */
  function Authenticate(apiKey: Option<string>, header: Option<string>): (g: Gate)
    ensures g.Reject? ==> g.response == UnauthorizedResponse
    ensures !AuthEnabled(apiKey) ==> g == Allow
    ensures AuthEnabled(apiKey) ==>
      (g == Allow <==> header == apiKey && |apiKey.value| <= MAX_KEY_HEADER_LENGTH)
  {
    if !AuthEnabled(apiKey) then Allow
    else if header.None? || header.value == [] || |header.value| > MAX_KEY_HEADER_LENGTH then Reject(UnauthorizedResponse)
    else if header.value != apiKey.value then Reject(UnauthorizedResponse)
    else Allow
  }

  /** A configured key longer than the header ceiling can never be presented. */
  lemma OverlongKeyLocksEveryoneOut(apiKey: Option<string>, header: Option<string>)
    requires AuthEnabled(apiKey) && |apiKey.value| > MAX_KEY_HEADER_LENGTH
    ensures Authenticate(apiKey, header) == Reject(UnauthorizedResponse)
  {
  }

  predicate IsAscii(s: string) {
    forall i :: 0 <= i < |s| ==> s[i] < '\U{80}'
  }

  /**
   * The gate as written: `hmac.compare_digest` on two `str` values raises
   * `TypeError` unless both are ASCII, and the unhandled exception becomes
   * the 500 handler's response instead of a 401.
   */
  function AuthenticateAsWritten(apiKey: Option<string>, header: Option<string>): (g: Gate)
    ensures g.Reject? ==> g.response == UnauthorizedResponse || g.response == Handle(InternalServerError)
    ensures g.Reject? && g.response.status == 500 <==>
      && AuthEnabled(apiKey) && header.Some?
      && 0 < |header.value| <= MAX_KEY_HEADER_LENGTH
      && !(IsAscii(header.value) && IsAscii(apiKey.value))
  {
    if !AuthEnabled(apiKey) then Allow
    else if header.None? || header.value == [] || |header.value| > MAX_KEY_HEADER_LENGTH then Reject(UnauthorizedResponse)
    else if !IsAscii(header.value) || !IsAscii(apiKey.value) then Reject(Handle(InternalServerError))
    else if header.value != apiKey.value then Reject(UnauthorizedResponse)
    else Allow
  }

  /** On ASCII keys and headers the code as written agrees with the corrected gate. */
  lemma AsWrittenAgreesOnAscii(apiKey: Option<string>, header: Option<string>)
    requires apiKey.Some? ==> IsAscii(apiKey.value)
    requires header.Some? ==> IsAscii(header.value)
    ensures AuthenticateAsWritten(apiKey, header) == Authenticate(apiKey, header)
  {
  }

  /**
   * A wrong key with one Latin-1 character (as a WSGI server decodes header
   * bytes) is answered with 500 instead of 401.
   */
  lemma NonAsciiHeaderGets500()
    ensures AuthenticateAsWritten(Some("secret"), Some("s\U{e9}cret")) == Reject(Handle(InternalServerError))
    ensures Authenticate(Some("secret"), Some("s\U{e9}cret")) == Reject(UnauthorizedResponse)
  {
    assert !IsAscii("s\U{e9}cret") by {
      assert "s\U{e9}cret"[1] == '\U{e9}';
    }
  }

  /** A configured key with a non-ASCII character can never be presented successfully. */
  lemma NonAsciiKeyNeverAuthenticates(apiKey: Option<string>, header: Option<string>)
    requires AuthEnabled(apiKey) && !IsAscii(apiKey.value)
    ensures AuthenticateAsWritten(apiKey, header).Reject?
    ensures header == apiKey && |apiKey.value| <= MAX_KEY_HEADER_LENGTH ==>
      && AuthenticateAsWritten(apiKey, header).response.status == 500
      && Authenticate(apiKey, header) == Allow
  {
  }
}
