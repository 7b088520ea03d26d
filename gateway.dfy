/**
 * The three endpoints (app.py:137-201) with the request guard in front of
 * them (app.py:65-89). The web layer hands over an already parsed request;
 * the clock, the transcription engine, the temporary file's name and the
 * outcome of saving the upload are parameters; the filesystem is a set of
 * existing paths.
 */
module Gateway {
  import opened Wrappers
  import opened Config
  import opened Responses
  import opened Identity
  import opened Auth
  import opened RateLimit
  import opened Upload
  import opened Transcript

  /** The `path` member of a JSON object body. */
  datatype PathField = Absent | NotAString | Text(path: string)

  /**
   * What `request.get_json(silent=True)` sees: a body not declared as JSON
   * (never read), one that does not parse, a JSON value that is not an
   * object, or an object.
   */
  datatype JsonBody = NotJson | Unparseable | NotAnObject | Object(path: PathField)

  datatype Request = Request(
    apiKeyHeader: Option<string>,
    remoteAddr: Option<string>,
    contentLength: nat,
    json: JsonBody,
    file: Option<UploadedFile>)

  /** The server's filesystem, as the set of paths that exist. */
  class FileSystem {
    var paths: set<string>

    constructor (initial: set<string>)
      ensures paths == initial
    {
      paths := initial;
    }

    function Exists(path: string): bool
      reads this
    {
      path in paths
    }

    /** Creating the temporary file (`tempfile.NamedTemporaryFile(delete=False)`). */
    method Create(path: string)
      modifies this
      ensures paths == old(paths) + {path}
    {
      paths := paths + {path};
    }

    /** `os.remove`; `ok` is false where it would raise `OSError`. */
    method Remove(path: string) returns (ok: bool)
      modifies this
      ensures ok == (path in old(paths))
      ensures paths == old(paths) - {path}
    {
      ok := path in paths;
      paths := paths - {path};
    }
  }

  /**
   * The body exceeds `MAX_CONTENT_LENGTH`: reading it raises
   * `RequestEntityTooLarge`. Whatever the configuration, a body of at most
   * 1 MiB is always read and one over 1 GiB never is.
   */
  function BodyTooLarge(s: Settings, req: Request): (tooLarge: bool)
    requires ValidSettings(s)
    ensures req.contentLength <= MEBIBYTE ==> !tooLarge
    ensures req.contentLength > MAX_UPLOAD_MB * MEBIBYTE ==> tooLarge
    ensures tooLarge <==> req.contentLength > s.maxUploadMb * MEBIBYTE
  {
    req.contentLength > MaxContentLength(s.maxUploadMb)
  }

  // ---------------------------------------------------------------------
  // The request guard

  /** The rate-limit bucket of a request. */
  function BucketOf(s: Settings, req: Request): string {
    Identifier(s.apiKey, req.apiKeyHeader, req.remoteAddr)
  }

  predicate Authenticated(s: Settings, req: Request) {
    Authenticate(s.apiKey, req.apiKeyHeader) == Allow
  }

  /**
   * The response the guard answers with, if any, given the log before the
   * request. It short-circuits: a bad credential is answered with 401 before
   * the limiter is consulted; an authenticated request is answered with 429
   * exactly when its bucket is full, and passes exactly when it is not.
   */
  function GuardRejection(s: Settings, req: Request, log: map<string, seq<int>>, now: int): (g: Option<Response>)
    ensures var kept := Purge(QueueIn(log, BucketOf(s, req)), now - RATE_WINDOW_SECONDS);
      && (g == Some(UnauthorizedResponse) <==> !Authenticated(s, req))
      && (g == Some(RateLimitedResponse) <==> Authenticated(s, req) && |kept| >= RATE_LIMIT)
      && (g == None <==> Authenticated(s, req) && |kept| < RATE_LIMIT)
      && (g.Some? ==> g == Some(UnauthorizedResponse) || g == Some(RateLimitedResponse))
  {
    assert UnauthorizedResponse.status != RateLimitedResponse.status;
    StepRecordsOnlyAdmissions(QueueIn(log, BucketOf(s, req)), now);
    if !Authenticated(s, req) then Some(UnauthorizedResponse)
    else if Step(QueueIn(log, BucketOf(s, req)), now).admitted then None
    else Some(RateLimitedResponse)
  }

  /**
   * The log after the guard has run. A bad credential leaves it alone, so
   * the attempt is counted nowhere; otherwise only the request's own bucket
   * changes, and it changes as one check of the limiter says.
   */
  function GuardLog(s: Settings, req: Request, log: map<string, seq<int>>, now: int): (r: map<string, seq<int>>)
    ensures !Authenticated(s, req) ==> r == log
    ensures Authenticated(s, req) ==> QueueIn(r, BucketOf(s, req)) == Step(QueueIn(log, BucketOf(s, req)), now).queue
    ensures forall id :: id != BucketOf(s, req) ==> QueueIn(r, id) == QueueIn(log, id)
  {
    if !Authenticated(s, req) then log
    else log[BucketOf(s, req) := Step(QueueIn(log, BucketOf(s, req)), now).queue]
  }

  /**
   * Once the guard lets a request through under a configured key, the
   * request was counted under "key|origin".
   */
  lemma PassedRequestsCountUnderKeyAndOrigin(s: Settings, req: Request, log: map<string, seq<int>>, now: int)
    requires AuthEnabled(s.apiKey)
    requires GuardRejection(s, req, log, now).None?
    ensures req.apiKeyHeader == s.apiKey
    ensures BucketOf(s, req) == s.apiKey.value + "|" + Origin(req.remoteAddr)
    ensures QueueIn(GuardLog(s, req, log, now), BucketOf(s, req))
      == Purge(QueueIn(log, BucketOf(s, req)), now - RATE_WINDOW_SECONDS) + [now]
  {
    SameKeySameBucketIffSameOrigin(s.apiKey, req.remoteAddr, req.remoteAddr);
  }

  /** `check_rate_limit` (app.py:65-79). */
  method CheckRateLimit(s: Settings, log: RequestLog, req: Request, now: int) returns (rejection: Option<Response>)
    modifies log
    ensures var v := Step(old(log.Queue(BucketOf(s, req))), now);
      && log.entries == old(log.entries)[BucketOf(s, req) := v.queue]
      && rejection == (if v.admitted then None else Some(RateLimitedResponse))
  {
    var id := Identifier(s.apiKey, req.apiKeyHeader, req.remoteAddr);
    var admitted := log.Admit(id, now);
    rejection := if admitted then None else Some(RateLimitedResponse);
  }

  /** `guard_request` (app.py:82-89): authentication first, then the rate limit. */
  method GuardRequest(s: Settings, log: RequestLog, req: Request, now: int) returns (rejection: Option<Response>)
    modifies log
    ensures rejection == GuardRejection(s, req, old(log.entries), now)
    ensures log.entries == GuardLog(s, req, old(log.entries), now)
  {
    var gate := Authenticate(s.apiKey, req.apiKeyHeader);
    if gate.Reject? {
      return Some(gate.response);
    }
    rejection := CheckRateLimit(s, log, req, now);
  }

  // ---------------------------------------------------------------------
  // POST /transcribe

  /** Every check of the path mode passed, so the engine is called on the path. */
  predicate PathAccepted(s: Settings, req: Request, existing: set<string>)
    requires ValidSettings(s)
  {
    && !BodyTooLarge(s, req)
    && req.json.Object? && req.json.path.Text?
    && req.json.path.path != []
    && req.json.path.path in existing
  }

  /** What `transcribe` answers once the guard has let the request through (app.py:142-157). */
  function PathModeOutcome(s: Settings, req: Request, existing: set<string>, engine: EngineResult): (r: Response)
    requires ValidSettings(s)
    ensures r.status in {200, 400, 413, 500}
    ensures r.body.Transcript? <==> r.status == 200
    ensures r.body.Error? <==> r.status != 200
    ensures r.status == 200 <==> PathAccepted(s, req, existing) && engine.Segments?
    ensures r.status == 200 ==> r.body.text == Join(engine.texts)
    ensures r.status == 500 <==> PathAccepted(s, req, existing) && engine.EngineFailure?
    ensures r.status == 500 ==> r.body == Error("Failed to transcribe audio")
    ensures r.status == 413 <==> req.json != NotJson && BodyTooLarge(s, req)
    ensures r.status == 413 ==> r == Response(413, Error("File too large"))
    ensures (!(req.json != NotJson && BodyTooLarge(s, req)) && !req.json.Object?)
            ==> r == Response(400, Error("Invalid JSON body"))
    ensures (!BodyTooLarge(s, req) && req.json.Object? && !(req.json.path.Text? && req.json.path.path != []))
            ==> r == Response(400, Error("Field 'path' must be a non-empty string"))
    ensures (!BodyTooLarge(s, req) && req.json.Object? && req.json.path.Text?
             && req.json.path.path != [] && req.json.path.path !in existing)
            ==> r == Response(400, Error("Invalid file path"))
  {
    if req.json != NotJson && BodyTooLarge(s, req) then Handle(RequestEntityTooLarge)
    else if !req.json.Object? then Response(400, Error("Invalid JSON body"))
    else if !req.json.path.Text? || req.json.path.path == [] then Response(400, Error("Field 'path' must be a non-empty string"))
    else if req.json.path.path !in existing then Response(400, Error("Invalid file path"))
    else match engine
      case EngineFailure => Response(500, Error("Failed to transcribe audio"))
      case Segments(texts) => Response(200, Transcript(Join(texts)))
  }

  /**
   * `transcribe` (app.py:137-157). The filesystem is only read: a path
   * given by the caller is never removed.
   */
  method Transcribe(s: Settings, log: RequestLog, fs: FileSystem, req: Request, now: int, engine: EngineResult)
    returns (r: Response)
    requires ValidSettings(s)
    modifies log
    ensures log.entries == GuardLog(s, req, old(log.entries), now)
    ensures var g := GuardRejection(s, req, old(log.entries), now);
      r == if g.Some? then g.value else PathModeOutcome(s, req, fs.paths, engine)
    ensures r.body.Transcript? ==> GuardRejection(s, req, old(log.entries), now).None?
  {
    var rejection := GuardRequest(s, log, req, now);
    if rejection.Some? {
      return rejection.value;
    }
    if req.json != NotJson && req.contentLength > MaxContentLength(s.maxUploadMb) {
      return Handle(RequestEntityTooLarge);
    }
    if !req.json.Object? {
      return Response(400, Error("Invalid JSON body"));
    }
    if !req.json.path.Text? || req.json.path.path == [] {
      return Response(400, Error("Field 'path' must be a non-empty string"));
    }
    var path := req.json.path.path;
    if !fs.Exists(path) {
      return Response(400, Error("Invalid file path"));
    }
    match engine {
      case EngineFailure =>
        r := Response(500, Error("Failed to transcribe audio"));
      case Segments(texts) =>
        r := Response(200, Transcript(Join(texts)));
    }
  }

  // ---------------------------------------------------------------------
  // POST /transcribe-file

  /** The answer to an upload rejected before any temporary file exists (app.py:165-171). */
  function UploadRejection(s: Settings, req: Request): (r: Option<Response>)
    requires ValidSettings(s)
    ensures r.None? <==> !BodyTooLarge(s, req) && req.file.Some? && IsAllowedFile(req.file.value)
    ensures r.Some? ==> r.value.status in {400, 413} && r.value.body.Error?
    ensures r.Some? && r.value.status == 413 <==> BodyTooLarge(s, req)
    ensures r.Some? && r.value.status == 413 ==> r.value == Response(413, Error("File too large"))
    ensures (!BodyTooLarge(s, req) && req.file.None?) ==> r == Some(Response(400, Error("Missing file field")))
    ensures (!BodyTooLarge(s, req) && req.file.Some? && req.file.value.filename == [])
            ==> r == Some(Response(400, Error("Empty filename")))
    ensures (!BodyTooLarge(s, req) && req.file.Some? && req.file.value.filename != [] && !IsAllowedFile(req.file.value))
            ==> r == Some(Response(400, Error("Unsupported file type")))
  {
    if BodyTooLarge(s, req) then Some(Handle(RequestEntityTooLarge))
    else if req.file.None? then Some(Response(400, Error("Missing file field")))
    else if req.file.value.filename == [] then Some(Response(400, Error("Empty filename")))
    else if !IsAllowedFile(req.file.value) then Some(Response(400, Error("Unsupported file type")))
    else None
  }

  /** The temporary file's path: a fresh name from `tempfile` plus the chosen suffix. */
  function TempPath(tmpName: string, req: Request): string {
    tmpName + (if req.file.Some? then TempSuffix(req.file.value.filename) else FALLBACK_SUFFIX)
  }

  /** What `transcribe_file` answers once the upload is on disk (app.py:175-193). */
  function UploadOutcome(saved: bool, engine: EngineResult): (r: Response)
    ensures r.body.Transcript? <==> r.status == 200
    ensures r.status == 200 <==> saved && engine.Segments?
    ensures r.status == 200 ==> r.body.text == Join(engine.texts)
    ensures r.status != 200 ==> r == Response(500, Error("Failed to transcribe uploaded file"))
  {
    if saved && engine.Segments? then Response(200, Transcript(Join(engine.texts)))
    else Response(500, Error("Failed to transcribe uploaded file"))
  }

  /**
   * The part of `transcribe_file` after validation (app.py:172-193): create
   * the temporary file, save and transcribe, and remove the file again on
   * success and on failure alike. `tempfile` picks a name that does not
   * exist yet, so the filesystem ends as it began.
   */
  method TranscribeSaved(fs: FileSystem, tmpPath: string, saved: bool, engine: EngineResult)
    returns (r: Response)
    requires tmpPath !in fs.paths
    modifies fs
    ensures r == UploadOutcome(saved, engine)
    ensures fs.paths == old(fs.paths)
  {
    fs.Create(tmpPath);
    var failed := !saved;
    var transcript := "";
    if !failed {
      match engine {
        case EngineFailure =>
          failed := true;
        case Segments(texts) =>
          transcript := Join(texts);
      }
    }
    if failed {
      if fs.Exists(tmpPath) {
        var _ := fs.Remove(tmpPath);
      }
      return Response(500, Error("Failed to transcribe uploaded file"));
    }
    if fs.Exists(tmpPath) {
      var _ := fs.Remove(tmpPath);
    }
    r := Response(200, Transcript(transcript));
  }

  /**
   * `transcribe_file` (app.py:160-193). `tmpName` is the fresh name
   * `tempfile` picks, `saved` whether `file.save` succeeded, `engine` the
   * engine's answer. A rejected request never touches the filesystem; an
   * accepted one creates the temporary file and removes it again, so every
   * exit leaves the filesystem as it was.
   */
  method TranscribeFile(s: Settings, log: RequestLog, fs: FileSystem, req: Request, now: int,
                        tmpName: string, saved: bool, engine: EngineResult)
    returns (r: Response)
    requires ValidSettings(s)
    requires TempPath(tmpName, req) !in fs.paths
    modifies log, fs
    ensures log.entries == GuardLog(s, req, old(log.entries), now)
    ensures var g := GuardRejection(s, req, old(log.entries), now);
      var v := UploadRejection(s, req);
      if g.Some? then r == g.value
      else if v.Some? then r == v.value
      else r == UploadOutcome(saved, engine)
    ensures fs.paths == old(fs.paths)
  {
    var rejection := GuardRequest(s, log, req, now);
    if rejection.Some? {
      return rejection.value;
    }
    if req.contentLength > MaxContentLength(s.maxUploadMb) {
      return Handle(RequestEntityTooLarge);
    }
    if req.file.None? {
      return Response(400, Error("Missing file field"));
    }
    var upload := req.file.value;
    if upload.filename == [] {
      return Response(400, Error("Empty filename"));
    }
    if !IsAllowedFile(upload) {
      return Response(400, Error("Unsupported file type"));
    }
    var tmpPath := tmpName + TempSuffix(upload.filename);
    r := TranscribeSaved(fs, tmpPath, saved, engine);
  }

  // ---------------------------------------------------------------------
  // GET /health

  /** `health_check` (app.py:196-201). */
  method HealthCheck(s: Settings, log: RequestLog, req: Request, now: int) returns (r: Response)
    modifies log
    ensures log.entries == GuardLog(s, req, old(log.entries), now)
    ensures var g := GuardRejection(s, req, old(log.entries), now);
      r == if g.Some? then g.value else Response(200, Status("ok"))
  {
    var rejection := GuardRequest(s, log, req, now);
    if rejection.Some? {
      return rejection.value;
    }
    r := Response(200, Status("ok"));
  }
}
