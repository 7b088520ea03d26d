/**
 * The JSON responses the gateway sends back: a status code and a body that
 * carries exactly one top-level field, `error`, `transcript` or `status`.
 */
module Responses {

  datatype Body =
    | Error(message: string)
    | Transcript(text: string)
    | Status(state: string)

  datatype Response = Response(status: int, body: Body)

  /** Sent by the credential gate (app.py:59, app.py:61). */
  const UnauthorizedResponse: Response := Response(401, Error("Unauthorized"))

  /** Sent by the rate limiter (app.py:77). */
  const RateLimitedResponse: Response := Response(429, Error("Too Many Requests"))

  /** The HTTP errors that have a registered handler (app.py:92-119). */
  datatype HttpError =
    | BadRequest
    | NotFound
    | MethodNotAllowed
    | TooManyRequests
    | InternalServerError
    | RequestEntityTooLarge

  /** The status code each handler is registered for. */
  function StatusOf(e: HttpError): int {
    match e
    case BadRequest => 400
    case NotFound => 404
    case MethodNotAllowed => 405
    case TooManyRequests => 429
    case InternalServerError => 500
    case RequestEntityTooLarge => 413
  }

  /** The body each handler answers with, keeping the status it was raised for. */
  function Handle(e: HttpError): (r: Response)
    ensures r.status == StatusOf(e) && r.body.Error?
    ensures 400 <= r.status <= 500
    ensures r.status >= 500 <==> e == InternalServerError
  {
    match e
    case BadRequest => Response(400, Error("Bad Request"))
    case NotFound => Response(404, Error("Not Found"))
    case MethodNotAllowed => Response(405, Error("Method Not Allowed"))
    case TooManyRequests => Response(429, Error("Too Many Requests"))
    case InternalServerError => Response(500, Error("Internal Server Error"))
    case RequestEntityTooLarge => Response(413, Error("File too large"))
  }

  /**
   * The handler table is unambiguous: no two handlers share a status, and the
   * rate limiter's own 429 body is the one the 429 handler would send.
   */
  lemma HandlersAreDistinct(e1: HttpError, e2: HttpError)
    ensures Handle(e1).status == Handle(e2).status ==> e1 == e2
    ensures Handle(TooManyRequests) == RateLimitedResponse
  {
  }
}
