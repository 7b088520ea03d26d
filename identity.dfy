/**
 * The key under which the rate limiter tracks a caller (app.py:66-70): the
 * presented API key (or "no-key") and the client address (or "unknown"),
 * joined by "|", when a key is configured; the address part alone otherwise.
 */
module Identity {
  import opened Wrappers
  import opened Config

  /**
   * Python's `value or fallback` on an optional string: a present non-empty
   * value is kept verbatim, and an absent or empty one gives the fallback.
   */
  function OrDefault(value: Option<string>, fallback: string): (r: string)
    requires fallback != []
    ensures r != []
    ensures value.Some? && value.value != [] ==> r == value.value
    ensures value.None? || value == Some("") ==> r == fallback
  {
    if value.Some? && value.value != [] then value.value else fallback
  }

  /** `request.headers.get("X-API-Key") or "no-key"`. */
  function KeyPart(header: Option<string>): string {
    OrDefault(header, "no-key")
  }

  /** `request.remote_addr or "unknown"`. */
  function Origin(addr: Option<string>): string {
    OrDefault(addr, "unknown")
  }

  /**
   * `"|".join(identifier_parts)`: the bucket always ends with the origin, and
   * it holds more than the origin exactly when a key is configured.
   */
  function Identifier(apiKey: Option<string>, header: Option<string>, addr: Option<string>): (id: string)
    ensures |Origin(addr)| <= |id| && id[|id| - |Origin(addr)|..] == Origin(addr)
    ensures AuthEnabled(apiKey) <==> |id| > |Origin(addr)|
  {
    if AuthEnabled(apiKey) then KeyPart(header) + "|" + Origin(addr) else Origin(addr)
  }

  /** Prepending the same text is injective. */
  lemma {:induction false} PrefixCancels(p: string, a: string, b: string)
    requires p + a == p + b
    ensures a == b
  {
    assert a == (p + a)[|p|..];
    assert b == (p + b)[|p|..];
  }

  /**
   * With a key configured, a request presenting exactly that key is counted
   * under "key|origin"; two such requests share a bucket exactly when their
   * origins agree. Without a key, the bucket is the origin itself.
   */
  lemma SameKeySameBucketIffSameOrigin(apiKey: Option<string>, a1: Option<string>, a2: Option<string>)
    requires AuthEnabled(apiKey)
    ensures Identifier(apiKey, apiKey, a1) == apiKey.value + "|" + Origin(a1)
    ensures Identifier(apiKey, apiKey, a1) == Identifier(apiKey, apiKey, a2) <==> Origin(a1) == Origin(a2)
  {
    if Identifier(apiKey, apiKey, a1) == Identifier(apiKey, apiKey, a2) {
      PrefixCancels(apiKey.value + "|", Origin(a1), Origin(a2));
    }
  }

  /** Without a configured key the bucket is the origin, whatever header is sent. */
  lemma KeylessBucketIsOrigin(apiKey: Option<string>, header: Option<string>, addr: Option<string>)
    requires !AuthEnabled(apiKey)
    ensures Identifier(apiKey, header, addr) == Origin(addr)
    ensures addr.Some? && addr.value != [] ==> Identifier(apiKey, header, addr) == addr.value
  {
  }

  /**
   * With a key configured, the presented header leads the identifier
   * (a missing or empty header is counted as "no-key") and the origin ends it.
   */
  lemma {:induction false} KeyedIdentifierLayout(apiKey: Option<string>, header: Option<string>, addr: Option<string>)
    requires AuthEnabled(apiKey)
    ensures var id := Identifier(apiKey, header, addr);
      var k := KeyPart(header);
      && |id| == |k| + 1 + |Origin(addr)|
      && id[..|k|] == k && id[|k|] == '|' && id[|k| + 1..] == Origin(addr)
      && (header.None? || header == Some("") ==> id[..|k|] == "no-key")
  {
  }
}
