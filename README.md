# Request admission for a Whisper transcription gateway

This project models, in Dafny, the part of `app.py` that decides whether a
request may reach the speech-to-text engine and what the caller gets back.

- **Configuration.** `API_KEY` is the stripped environment value. It is
  absent when the variable is unset or blank. The upload ceiling
  `MAX_UPLOAD_MB` falls back to 50 when it is unset, does not parse, or lies
  outside 1..1024. The byte limit is that many MiB.
- **Credential gate.** With no key configured, every request passes.
  Otherwise the `X-API-Key` header must be present, non-empty, at most 256
  characters long and equal to the key, with `hmac.compare_digest` read as
  equality. Anything else gets `401 {"error": "Unauthorized"}`. A non-ASCII
  header or key that gets past the length check makes `compare_digest` raise
  instead, and the caller gets `500`; see "## Findings".
- **Identity resolver.** The rate-limit bucket is `key|origin` when a key is
  configured, and the origin alone otherwise. A missing key reads as
  `no-key` and a missing address as `unknown`.
- **Sliding-window rate limiter.** `_request_log` maps each bucket to a queue
  of request times. A check drops from the front every time strictly older
  than `now - 60`. If 60 times remain it refuses with
  `429 {"error": "Too Many Requests"}` and records nothing. Otherwise it
  appends `now`. The class `RateLimit.RequestLog` holds the map and does the
  `popleft` loop. It is proved against the pure `RateLimit.Step`.
- **Request guard.** Authentication runs first, then the rate limit. The
  first rejection is the answer.
- **Upload validator and suffix.** An upload is accepted when the text after
  the last dot, lower-cased, is one of `wav mp3 m4a flac ogg webm`, and when
  the declared type starts with `audio/` or is `video/webm` or
  `application/octet-stream`. The temporary file takes that extension as its
  suffix. `.tmp` is the fallback.
- **Endpoints.** `POST /transcribe` takes a server-side path and
  `POST /transcribe-file` takes an upload. `GET /health` answers
  `{"status": "ok"}`. Every answer is a status plus exactly one of
  `transcript`, `error` or `status`. The transcript is the engine's segment
  texts joined by single spaces. An accepted upload is written to a
  temporary file, and that file is removed on success and on engine failure
  alike.

Some things are parameters: the clock (whole seconds), the engine's answer,
the name `tempfile` picks and whether saving the upload succeeded. The
filesystem is the class `Gateway.FileSystem`, which holds the set of
existing paths.

Two consequences of the order in which the code does things:

- A failed credential is counted nowhere. Authentication rejects before the
  limiter runs (app.py:83-85), and `Gateway.GuardLog` states that the log
  is unchanged after a 401.
- No temporary file exists before an upload passes validation
  (app.py:165-176). `Gateway.TranscribeFile` reaches the filesystem only
  through `Gateway.TranscribeSaved`, after every check has passed, and every
  exit leaves the filesystem as it was.

## Model

| member | source | states |
|---|---|---|
| `Config.Strip` | app.py:13 | the result has no whitespace at either end, and it is empty exactly when the input is all whitespace |
| `Config.StripKeepsCore` | app.py:13 | the stripped key is one contiguous piece of the raw value, with only whitespace before and after it |
| `Config.TrimmedEndsPadded` | app.py:13 | peeling a whitespace prefix and then a whitespace suffix leaves the remaining piece in place, with only whitespace around it |
| `Config.ConfiguredApiKey` | app.py:12-13 | `API_KEY` is absent exactly when the variable is unset or blank; when present it is non-empty, has no whitespace at either end, and sits in the raw value with only whitespace around it (so it is the raw value stripped), and authentication is then enabled |
| `Config.MaxUploadMb` | app.py:15-22 | the ceiling always lies in 1..1024; an in-range parsed value is kept; any other value is replaced by 50 |
| `Config.MaxContentLength` | app.py:23 | the byte limit is a whole number of MiB, the configured number, between 1 MiB and 1 GiB |
| `Config.LoadSettings` | app.py:12-23 | the loaded settings satisfy both invariants: a present key is non-empty and the ceiling is in range |
| `Responses.Handle` | app.py:92-119 | each registered handler answers with an `error` body and the status it is registered for; only the 500 handler answers 5xx |
| `Responses.HandlersAreDistinct` | app.py:77 | no two handlers share a status, and the limiter's own 429 body is the 429 handler's body |
| `Identity.OrDefault` | app.py:68-69 | both parts of a bucket are never empty: a present non-empty header or address is kept verbatim, and an absent or empty one reads as the fallback (`no-key` for the key, `unknown` for the origin) |
| `Identity.Identifier` | app.py:66-70 | the bucket always ends with the origin, and it is longer than the origin exactly when a key is configured |
| `Identity.SameKeySameBucketIffSameOrigin` | app.py:66-70 | a request presenting the configured key is counted under `key|origin`, and two such requests share a bucket exactly when their origins agree |
| `Identity.KeylessBucketIsOrigin` | app.py:66-70 | with no key configured the bucket is the origin, whatever header is sent |
| `Identity.KeyedIdentifierLayout` | app.py:66-70 | with a key configured the bucket is the presented key (or `no-key`), a `|`, then the origin |
| `Auth.Authenticate` | app.py:53-62 | with no key every request passes; with a key a request passes exactly when the header equals the key and the key is at most 256 characters; every rejection is the 401 body |
| `Auth.OverlongKeyLocksEveryoneOut` | app.py:58 | a configured key longer than 256 characters can never be presented |
| `Auth.AuthenticateAsWritten` | app.py:53-62 | as written, a header of acceptable length that is not ASCII (or a non-ASCII key) is answered with 500, never 401 or a pass |
| `Auth.AsWrittenAgreesOnAscii` | app.py:60-61 | on ASCII keys and headers the code as written and the corrected gate agree |
| `Auth.NonAsciiHeaderGets500` | app.py:60 | the wrong key `sécret` against `secret` gets 500 as written and 401 when corrected |
| `Auth.NonAsciiKeyNeverAuthenticates` | app.py:60 | as written, a configured key with a non-ASCII character rejects every request, including the correct one |
| `RateLimit.Purge` | app.py:72-75 | the trim drops a prefix whose times are all older than the window start, and what remains is empty or starts inside the window |
| `RateLimit.Step` | app.py:72-78 | after one check the queue is non-empty with its front inside the window; an admitted request leaves `now` at the back and at most 60 times; a queue within the limit stays within it |
| `RateLimit.StepRecordsOnlyAdmissions` | app.py:76-78 | a refusal records nothing; an admission appends exactly `now` and grows the queue by one; refusal happens exactly when 60 times remain |
| `RateLimit.PurgeOrderedInWindow` | app.py:74-75 | trimming an ordered queue keeps it ordered and leaves only times inside the window |
| `RateLimit.StepKeepsOrderedWindow` | app.py:72-78 | with non-decreasing times, after a check every remaining time lies in `[now - 60, now]` and the queue stays ordered |
| `RateLimit.StepKeepsLogInvariants` | app.py:27 | one check keeps every queue within 60 entries, and keeps every queue ordered and not in the future |
| `RateLimit.RequestLog.constructor` | app.py:27 | the log starts empty |
| `RateLimit.RequestLog.Admit` | app.py:71-79 | the loop leaves the trimmed queue; the new log differs from the old only at the checked bucket; the front is inside the window; both log invariants are kept |
| `SlidingWindow.PurgeTwice` | app.py:72-75 | trimming at one window start and then at a later one equals one trim at the later start |
| `SlidingWindow.PurgeAppend` | app.py:78 | a time appended inside the window survives later trims at that start |
| `SlidingWindow.CountInBelowPurged` | app.py:74-75 | times the trim drops are never counted in a window that starts at or after the trim point |
| `SlidingWindow.PurgeCountsOrdered` | app.py:74-76 | on ordered times, the trimmed queue's length is exactly the number of times in the window |
| `SlidingWindow.QueueIsRecentAdmissions` | app.py:71-79 | over non-decreasing request times, the queue is exactly the admitted times the last trim kept, so refused requests never count |
| `SlidingWindow.QueueAfterStep` | app.py:71-79 | over non-decreasing request times, after one more check, the queue equals the admitted times (including `now` when admitted) trimmed at `now - 60` |
| `SlidingWindow.TrimOfPrevious` | app.py:72-75 | over non-decreasing request times, before a request at `now`, trimming the queue at `now - 60` gives the same times as trimming every admitted time at `now - 60` |
| `SlidingWindow.AdmittedAreOrdered` | app.py:78 | over non-decreasing request times, the admitted times are ordered and none is after the last request |
| `SlidingWindow.AdmitIffWindowNotFull` | app.py:71-79 | over non-decreasing request times, a request at `now` is admitted exactly when fewer than 60 earlier requests were admitted in `[now - 60, now]` |
| `SlidingWindow.WindowAfterStep` | app.py:76-78 | over non-decreasing request times, if a window held at most 60 admitted times, one more check keeps it at most 60 |
| `SlidingWindow.AtMostLimitPerWindow` | app.py:25-26 | over non-decreasing request times, no closed window of 60 seconds ever holds more than 60 admitted requests from one bucket |
| `SlidingWindow.ReplayBehindLaterFront` | app.py:71-79 | after one request, up to 59 requests stamped up to 60 seconds earlier are all admitted and queued behind it, and nothing is trimmed |
| `SlidingWindow.ClockStepBackRefusesOpenWindow` | app.py:71 | when the clock steps back past the window after the first of 60 requests, the next request is refused although only one admitted request lies in its trailing window |
| `Upload.Lower` | app.py:128 | lower-casing keeps the length and maps each character through ASCII lower-casing |
| `Upload.AfterLastDot` | app.py:128 | the result is the dot-free text after the last dot of the name |
| `Upload.AfterLastDotOfSplit` | app.py:128 | for any name `stem.ext` with no dot in `ext`, the extension found is `ext` |
| `Upload.MimeAccepted` | app.py:131-132 | a type is accepted exactly when it is `audio/` followed by anything, or exactly `video/webm` or `application/octet-stream` |
| `Upload.HasAllowedExtension` | app.py:126-130 | the extension test holds exactly when the name is some `stem.ext` with a dot-free `ext` whose lower case is allowed |
| `Upload.IsAllowedFile` | app.py:122-134 | an upload passes exactly when its name is `stem.ext` with a dot-free `ext` whose lower case is allowed and its type is accepted |
| `Upload.TempSuffix` | app.py:172-173 | the suffix is `.tmp` or a dot followed by an allowed extension |
| `Upload.AllowedUploadKeepsExtension` | app.py:170-173 | for an upload that passed the filter, the suffix is the upload's own lower-cased extension and never `.tmp` |
| `Upload.UpperCaseExtensionAccepted` | app.py:128-132 | `clip.WAV` declared as `audio/wav` passes |
| `Upload.UpperCaseExtensionLowered` | app.py:172-173 | `clip.WAV` gets the suffix `.wav` |
| `Upload.ExecutableRefused` | app.py:129-130 | `virus.exe` is refused whatever type it declares |
| `Transcript.Join` | app.py:154 | the transcript of no segments is empty; otherwise its length is the segment texts' total plus one space between each neighbouring pair, and it starts with the first text |
| `Transcript.JoinLayout` | app.py:154 | every segment text appears verbatim at its offset (the lengths of the texts before it plus one space each), and a space stands just before every text but the first |
| `Transcript.SplitJoin` | app.py:180 | when no segment contains a space, splitting the transcript on spaces gives back the segments in the engine's order |
| `Gateway.FileSystem.Create` | app.py:176 | creating the temporary file adds exactly its path |
| `Gateway.FileSystem.Remove` | app.py:184 | removal takes away exactly the path, and reports whether the path existed |
| `Gateway.BodyTooLarge` | app.py:23 | whatever the configuration, a body of at most 1 MiB is always within the ceiling and one over 1 GiB never is; otherwise the ceiling is the configured number of MiB |
| `Gateway.GuardRejection` | app.py:82-89 | a bad credential gets 401; an authenticated request gets 429 exactly when its bucket is full and passes exactly when it is not; no other answer is possible |
| `Gateway.GuardLog` | app.py:82-89 | a bad credential leaves the log alone; otherwise the request's bucket gets the limiter's new queue; other buckets never change |
| `Gateway.PassedRequestsCountUnderKeyAndOrigin` | app.py:66-70 | a request the guard lets through under a configured key presented that key, and was recorded at `now` in the `key|origin` bucket |
| `Gateway.CheckRateLimit` | app.py:65-79 | the request's bucket gets the limiter's new queue, and the answer is 429 exactly when the limiter refused |
| `Gateway.GuardRequest` | app.py:82-89 | the answer and the new log are the guard's |
| `Gateway.PathModeOutcome` | app.py:142-157 | 200 with a transcript exactly when the path checks pass and the engine answers, and the transcript is the joined segments; 500 with a generic message exactly when the checks pass and the engine fails; 413 `File too large` exactly for a declared JSON body over the ceiling; otherwise a body that is not a JSON object gets `Invalid JSON body`, a `path` that is not a non-empty string gets `Field 'path' must be a non-empty string`, and a path that does not exist gets `Invalid file path` |
| `Gateway.Transcribe` | app.py:137-157 | the guard's answer if it rejects, otherwise the path-mode answer; a transcript is only ever returned after the guard passed; the filesystem is never changed |
| `Gateway.UploadRejection` | app.py:165-171 | no rejection exactly when the body is within the ceiling and a file is present and allowed; a rejection is 400 or 413; a body over the ceiling gets 413 `File too large`; otherwise no file field gets `Missing file field`, an empty filename gets `Empty filename`, and a named file of a disallowed type gets `Unsupported file type` |
| `Gateway.UploadOutcome` | app.py:174-193 | 200 with the joined segments exactly when the save and the engine succeed, otherwise 500 with a generic message |
| `Gateway.TranscribeSaved` | app.py:172-193 | given a temporary path that does not exist yet, the answer is the upload outcome and the filesystem ends as it began: the file is created and removed again on success and failure alike |
| `Gateway.TranscribeFile` | app.py:160-193 | the guard's answer, else the validation answer, else the upload outcome; with a fresh temporary name every exit leaves the filesystem as it was |
| `Gateway.HealthCheck` | app.py:196-201 | the guard's answer if it rejects, otherwise `200 {"status": "ok"}` |

## Left out

- Flask routing is not modelled, and neither are `request`, `jsonify` and the
  `errorhandler` registration. The request arrives already parsed. The
  404/405 handlers survive only as rows of `Responses.Handle`.
- The `WhisperModel` loading and the model-name fallback (app.py:38-50) are
  left out. `model.transcribe` is an oracle that returns segment texts or
  fails. A failure while iterating the segments counts as a failure.
- `hmac.compare_digest` is modelled as string equality. Its constant timing
  cannot be expressed.
- `Gateway.GuardRequest`, `Gateway.Transcribe`, `Gateway.TranscribeFile` and
  `Gateway.HealthCheck` use the corrected gate `Auth.Authenticate`. A
  non-ASCII header of allowed length therefore gets 401 in the model, where
  the source answers 500 (`Auth.AuthenticateAsWritten`, see "## Findings").
- `time.time()` returns a float. The model uses whole seconds passed in as
  a parameter.
- `SlidingWindow.AtMostLimitPerWindow`, `SlidingWindow.AdmitIffWindowNotFull`
  and the other window guarantees assume a clock that never steps back.
  `time.time()` is a wall clock and can step back; see "## Findings".
- `Gateway.TranscribeFile`: `tempfile` choosing a fresh name is modelled by
  the `tmpName` parameter, which the method requires not to name an existing
  path. A failure to create the temporary file is not
  modelled; the source would answer 500 without any file on disk.
- `Gateway.TranscribeFile`: `os.remove` always succeeds in the model. In the
  source an `OSError` is swallowed and the file would stay behind.
- Python's `int()` parsing of `MAX_UPLOAD_MB` is left out.
  `Config.MaxUploadMb` takes the parsed value, or none when the variable is
  unset or does not parse.
- `Upload.Lower` lower-cases ASCII letters only. Membership in the
  allow-list is still exact: the only non-ASCII characters that Python
  lowers into ASCII letters are U+212A (to `k`) and U+0130 (to `i` plus a
  combining dot), and no allowed extension contains `k` or `i`.
- The declared mimetype is taken as the web layer gives it. The web layer
  already removes parameters and lower-cases it.
- `Gateway.PathModeOutcome`: the 413 answer comes from the body size alone,
  as given by `Content-Length`. How the web layer handles streamed bodies
  without a length is not modelled.
- Concurrency is left out. The source has no lock around `_request_log`, and
  the model is sequential.
- Unanticipated exceptions are not modelled, apart from the one in the
  finding below.

## Findings

| source | as written | input that shows it | evidently intended | confidence | as-written member | corrected member |
|---|---|---|---|---|---|---|
| app.py:60 | `hmac.compare_digest` on two `str` values raises `TypeError` unless both are ASCII; the exception is unhandled, so the 500 handler answers `Internal Server Error` | key `secret`, header `sécret` (a Latin-1 byte in the header, as the WSGI layer decodes it) | a wrong or malformed key gets `401 Unauthorized`; a configured non-ASCII key can be presented | high; not executed | `Auth.NonAsciiHeaderGets500` | `Auth.Authenticate` |
| app.py:71 | the limiter stamps requests with the wall clock `time.time()` and trims only from the front of the queue, so times stamped after the clock stepped back hide behind a later front and are never dropped | one request at 100, then 59 stamped 0, then one at 130: refused with 429 although only one admitted request lies in `[70, 130]` | a request is refused only when 60 admitted requests fall in the trailing minute, as with a clock that never steps back (`time.monotonic()`) | medium; not executed | `SlidingWindow.ClockStepBackRefusesOpenWindow` | `SlidingWindow.AdmitIffWindowNotFull` |
