/**
 * The upload pre-filter (app.py:29-36, app.py:122-134) and the choice of
 * the temporary file's suffix (app.py:172-173).
 */
module Upload {

  const ALLOWED_AUDIO_EXTENSIONS: set<string> := {"wav", "mp3", "m4a", "flac", "ogg", "webm"}

  /** The suffix used when the extension is not on the allow-list. */
  const FALLBACK_SUFFIX: string := ".tmp"

  /** A multipart file part: its client-side name and declared media type ("" when absent). */
  datatype UploadedFile = UploadedFile(filename: string, mimetype: string)

  function LowerChar(c: char): char {
    if 'A' <= c <= 'Z' then (c as int + 32) as char else c
  }

  /**
   * Python's `str.lower()` on the ASCII letters; every other character is
   * kept, and no upper-case ASCII letter is left.
   */
  function Lower(s: string): (r: string)
    ensures |r| == |s|
    ensures forall i :: 0 <= i < |s| ==> r[i] == LowerChar(s[i])
  {
    if s == [] then [] else [LowerChar(s[0])] + Lower(s[1..])
  }

  /** `s.rsplit(".", 1)[1]`: the text after the last dot. */
  function AfterLastDot(s: string): (r: string)
    requires '.' in s
    ensures |r| < |s| && s[|s| - |r| - 1] == '.'
    ensures r == s[|s| - |r|..] && '.' !in r
  {
    if s[|s| - 1] == '.' then [] else AfterLastDot(s[..|s| - 1]) + [s[|s| - 1]]
  }

  /** Whatever precedes the last dot, the text after it is the extension. */
  lemma {:induction false} AfterLastDotOfSplit(stem: string, ext: string)
    requires '.' !in ext
    ensures AfterLastDot(stem + "." + ext) == ext
  {
    var s := stem + "." + ext;
    if ext != [] {
      var init := ext[..|ext| - 1];
      assert s[..|s| - 1] == stem + "." + init;
      assert ext[|ext| - 1] in ext;
      AfterLastDotOfSplit(stem, init);
      assert ext == init + [ext[|ext| - 1]];
    }
  }

  /** A media type whose top-level type is `audio`. */
  function AudioType(subtype: string): (m: string)
    ensures "audio/" <= m && m[|"audio/"|..] == subtype
  {
    "audio/" + subtype
  }

  /**
   * `mimetype.startswith("audio/")` or one of the two explicit exceptions:
   * the type is `audio/` followed by anything, or exactly `video/webm` or
   * `application/octet-stream`.
   */
  function MimeAccepted(mimetype: string): (ok: bool)
    ensures ok <==> ((exists sub :: mimetype == AudioType(sub))
                     || mimetype == "video/webm" || mimetype == "application/octet-stream")
  {
    if "audio/" <= mimetype then
      assert mimetype == AudioType(mimetype[|"audio/"|..]);
      true
    else
      mimetype == "video/webm" || mimetype == "application/octet-stream"
  }

  /** `ext` is a last-dot extension of `filename` whose lower case is allowed. */
  ghost predicate AllowedSplit(filename: string, stem: string, ext: string) {
    filename == stem + "." + ext && '.' !in ext && Lower(ext) in ALLOWED_AUDIO_EXTENSIONS
  }

  /** The last-dot split of a name with an allowed extension is an allowed split. */
  lemma LastDotSplitAllowed(filename: string)
    requires '.' in filename && Lower(AfterLastDot(filename)) in ALLOWED_AUDIO_EXTENSIONS
    ensures AllowedSplit(filename, filename[..|filename| - |AfterLastDot(filename)| - 1], AfterLastDot(filename))
  {
    LastDotSplit(filename);
  }

  /** A name with a dot is its text before the last dot, the dot, and the extension. */
  lemma LastDotSplit(filename: string)
    requires '.' in filename
    ensures filename == filename[..|filename| - |AfterLastDot(filename)| - 1] + "." + AfterLastDot(filename)
  {
    var ext := AfterLastDot(filename);
    var n := |filename| - |ext| - 1;
    assert filename == filename[..n] + [filename[n]] + filename[n + 1..];
  }

  /** Any allowed split of a name is its last-dot split. */
  lemma AllowedSplitIsLastDot(filename: string, stem: string, ext: string)
    requires AllowedSplit(filename, stem, ext)
    ensures '.' in filename && AfterLastDot(filename) == ext
  {
    AfterLastDotOfSplit(stem, ext);
    assert filename[|stem|] == '.';
  }

  /**
   * The extension test of `is_allowed_file` holds exactly when the name is
   * some `stem.ext` with a dot-free `ext` whose lower case is allowed.
   */
  lemma HasAllowedExtension(filename: string)
    ensures ('.' in filename && Lower(AfterLastDot(filename)) in ALLOWED_AUDIO_EXTENSIONS)
      <==> exists stem, ext :: AllowedSplit(filename, stem, ext)
  {
    if '.' in filename && Lower(AfterLastDot(filename)) in ALLOWED_AUDIO_EXTENSIONS {
      LastDotSplitAllowed(filename);
    }
    if exists stem, ext :: AllowedSplit(filename, stem, ext) {
      var stem, ext :| AllowedSplit(filename, stem, ext);
      AllowedSplitIsLastDot(filename, stem, ext);
    }
  }

  /**
   * `is_allowed_file`: an upload passes exactly when its name ends in a dot
   * and an allowed extension (in any letter case) and its declared type is
   * audio, or one of the two accepted fallbacks.
   */
  function IsAllowedFile(f: UploadedFile): (ok: bool)
    ensures ok <==> (exists stem, ext :: AllowedSplit(f.filename, stem, ext)) && MimeAccepted(f.mimetype)
  {
    HasAllowedExtension(f.filename);
    && f.filename != []
    && '.' in f.filename
    && Lower(AfterLastDot(f.filename)) in ALLOWED_AUDIO_EXTENSIONS
    && MimeAccepted(f.mimetype)
  }

  /** The suffix handed to the temporary file (app.py:172-173). */
  function TempSuffix(filename: string): (suffix: string)
    ensures suffix == FALLBACK_SUFFIX || (|suffix| > 1 && suffix[0] == '.' && suffix[1..] in ALLOWED_AUDIO_EXTENSIONS)
  {
    var ext := if '.' in filename then Lower(AfterLastDot(filename)) else "";
    if ext in ALLOWED_AUDIO_EXTENSIONS then "." + ext else FALLBACK_SUFFIX
  }

  /**
   * For an upload that passed the filter, the temporary file keeps the
   * upload's own (lower-cased) extension: the fallback is never reached.
   */
  lemma AllowedUploadKeepsExtension(f: UploadedFile)
    requires IsAllowedFile(f)
    ensures TempSuffix(f.filename) == "." + Lower(AfterLastDot(f.filename))
    ensures TempSuffix(f.filename) != FALLBACK_SUFFIX
  {
    var ext := Lower(AfterLastDot(f.filename));
    assert ("." + ext)[1..] == ext;
  }

  /** The extension of `clip.WAV` lower-cases to the allowed `wav`. */
  lemma ClipWavExtension()
    ensures '.' in "clip.WAV" && Lower(AfterLastDot("clip.WAV")) == "wav"
    ensures "wav" in ALLOWED_AUDIO_EXTENSIONS
  {
    assert "clip" + "." + "WAV" == "clip.WAV";
    AfterLastDotOfSplit("clip", "WAV");
    assert LowerChar('W') == 'w' && LowerChar('A') == 'a' && LowerChar('V') == 'v';
    assert "clip.WAV"[4] == '.';
  }

  /** An upper-case extension passes the filter. */
  lemma UpperCaseExtensionAccepted()
    ensures IsAllowedFile(UploadedFile("clip.WAV", "audio/wav"))
  {
    ClipWavExtension();
    assert MimeAccepted("audio/wav") by {
      assert "audio/wav" == AudioType("wav");
    }
  }

  /** The temporary file of an upper-case extension gets the lower-cased suffix. */
  lemma UpperCaseExtensionLowered()
    ensures TempSuffix("clip.WAV") == ".wav"
  {
    ClipWavExtension();
    assert "." + "wav" == ".wav";
  }

  /** An executable is refused whatever type it declares. */
  lemma ExecutableRefused(mimetype: string)
    ensures !IsAllowedFile(UploadedFile("virus.exe", mimetype))
  {
    assert "virus" + "." + "exe" == "virus.exe";
    AfterLastDotOfSplit("virus", "exe");
    assert Lower("exe") == "exe" by {
      assert LowerChar('e') == 'e' && LowerChar('x') == 'x';
    }
    assert "exe" !in ALLOWED_AUDIO_EXTENSIONS;
    assert Lower(AfterLastDot("virus.exe")) !in ALLOWED_AUDIO_EXTENSIONS;
  }
}
