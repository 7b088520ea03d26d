/**
 * Process-wide settings read once from the environment at start-up
 * (app.py:12-23): the API key and the upload ceiling.
 */
module Config {
  import opened Wrappers

  const DEFAULT_MAX_UPLOAD_MB: int := 50
  const MIN_UPLOAD_MB: int := 1
  const MAX_UPLOAD_MB: int := 1024
  const MEBIBYTE: int := 1024 * 1024

  /** The characters Python's `str.isspace` accepts, i.e. those `str.strip()` removes. */
  predicate IsSpace(c: char) {
    || c == ' '
    || '\t' <= c <= '\r'
    || '\U{1c}' <= c <= '\U{1f}'
    || c == '\U{85}' || c == '\U{a0}' || c == '\U{1680}'
    || '\U{2000}' <= c <= '\U{200a}'
    || c == '\U{2028}' || c == '\U{2029}' || c == '\U{202f}' || c == '\U{205f}' || c == '\U{3000}'
  }

  /** Drops leading whitespace; what is dropped is exactly a whitespace prefix. */
  function TrimStart(s: string): (r: string)
    ensures |r| <= |s| && r == s[|s| - |r|..]
    ensures forall i :: 0 <= i < |s| - |r| ==> IsSpace(s[i])
    ensures r == [] || !IsSpace(r[0])
  {
    if s != [] && IsSpace(s[0]) then TrimStart(s[1..]) else s
  }

  /** Drops trailing whitespace; what is dropped is exactly a whitespace suffix. */
  function TrimEnd(s: string): (r: string)
    ensures |r| <= |s| && r == s[..|r|]
    ensures forall i :: |r| <= i < |s| ==> IsSpace(s[i])
    ensures r == [] || !IsSpace(r[|r| - 1])
  {
    if s != [] && IsSpace(s[|s| - 1]) then TrimEnd(s[..|s| - 1]) else s
  }

  /** Python's `str.strip()` with no argument. */
  function Strip(s: string): (r: string)
    ensures r == [] || (!IsSpace(r[0]) && !IsSpace(r[|r| - 1]))
    ensures r == [] <==> forall i :: 0 <= i < |s| ==> IsSpace(s[i])
  {
    var t := TrimStart(s);
    var r := TrimEnd(t);
    assert r != [] ==> r[0] == t[0];
    assert t != [] ==> !IsSpace(t[0]);
    r
  }

  /** `r` sits at offset `i` of `s` with only whitespace before and after it. */
  ghost predicate PaddedAt(s: string, r: string, i: int) {
    && 0 <= i <= |s| - |r|
    && s[i..i + |r|] == r
    && (forall k :: 0 <= k < i ==> IsSpace(s[k]))
    && (forall k :: i + |r| <= k < |s| ==> IsSpace(s[k]))
  }

  /** `Strip` keeps one contiguous piece of `s` and removes only whitespace around it. */
  lemma StripKeepsCore(s: string)
    ensures exists i :: PaddedAt(s, Strip(s), i)
  {
    var t := TrimStart(s);
    var i := |s| - |t|;
    TrimmedEndsPadded(s, t, TrimEnd(t));
    assert PaddedAt(s, Strip(s), i);
  }

  /** Peeling a whitespace prefix and then a whitespace suffix leaves a padded core. */
  lemma TrimmedEndsPadded(s: string, t: string, r: string)
    requires |t| <= |s| && t == s[|s| - |t|..]
    requires forall k :: 0 <= k < |s| - |t| ==> IsSpace(s[k])
    requires |r| <= |t| && r == t[..|r|]
    requires forall k :: |r| <= k < |t| ==> IsSpace(t[k])
    ensures PaddedAt(s, r, |s| - |t|)
  {
    var i := |s| - |t|;
    assert s[i..i + |r|] == s[i..][..|r|];
    forall k | i + |r| <= k < |s|
      ensures IsSpace(s[k])
    {
      assert s[k] == t[k - i];
    }
  }

  /** True when a key is configured: the Python truthiness of `API_KEY`. */
  predicate AuthEnabled(apiKey: Option<string>) {
    apiKey.Some? && apiKey.value != []
  }

  /**
   * `API_KEY`: the stripped environment value, or none when the variable is
   * unset or holds only whitespace.
   */
  function ConfiguredApiKey(raw: Option<string>): (key: Option<string>)
    ensures key.Some? ==> key.value != [] && !IsSpace(key.value[0]) && !IsSpace(key.value[|key.value| - 1])
    ensures key.None? <==> raw.None? || forall i :: 0 <= i < |raw.value| ==> IsSpace(raw.value[i])
    ensures key.Some? <==> AuthEnabled(key)
    ensures key.Some? ==> exists i :: PaddedAt(raw.value, key.value, i)
  {
    if raw.Some? && Strip(raw.value) != [] then
      StripKeepsCore(raw.value);
      Some(Strip(raw.value))
    else None
  }

  /**
   * The upload ceiling in MiB. `parsed` is the integer parsed from
   * `MAX_UPLOAD_MB`, or none when the variable is unset or does not parse.
   */
  function MaxUploadMb(parsed: Option<int>): (mb: int)
    ensures MIN_UPLOAD_MB <= mb <= MAX_UPLOAD_MB
    ensures parsed.Some? && MIN_UPLOAD_MB <= parsed.value <= MAX_UPLOAD_MB ==> mb == parsed.value
    ensures mb != DEFAULT_MAX_UPLOAD_MB ==> parsed == Some(mb)
  {
    var mb := if parsed.Some? then parsed.value else DEFAULT_MAX_UPLOAD_MB;
    if mb <= 0 || mb > MAX_UPLOAD_MB then DEFAULT_MAX_UPLOAD_MB else mb
  }

  /** `MAX_CONTENT_LENGTH`: the ceiling in bytes. */
  function MaxContentLength(mb: int): (bytes: int)
    requires MIN_UPLOAD_MB <= mb <= MAX_UPLOAD_MB
    ensures MEBIBYTE <= bytes <= MAX_UPLOAD_MB * MEBIBYTE
    ensures bytes % MEBIBYTE == 0 && bytes / MEBIBYTE == mb
  {
    mb * 1024 * 1024
  }

  /** The settings the request handlers consult. */
  datatype Settings = Settings(apiKey: Option<string>, maxUploadMb: int)

  ghost predicate ValidSettings(s: Settings) {
    (s.apiKey.Some? ==> s.apiKey.value != []) && MIN_UPLOAD_MB <= s.maxUploadMb <= MAX_UPLOAD_MB
  }

  function LoadSettings(rawApiKey: Option<string>, parsedMaxUpload: Option<int>): (s: Settings)
    ensures ValidSettings(s)
  {
    Settings(ConfiguredApiKey(rawApiKey), MaxUploadMb(parsedMaxUpload))
  }
}
