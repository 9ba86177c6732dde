/**
 * The application's exception type (`SpotifyApiException`) and the global
 * exception handler that turns thrown exceptions into JSON error responses.
 * The timestamp in each response comes from the clock and is not modelled.
 */
module Exceptions {
  import opened Wrappers

  /** A `SpotifyApiException`: its message, status code, error code and optional cause (described by its message). */
  datatype SpotifyApiException = SpotifyApiException(message: string, statusCode: int, errorCode: string, cause: Option<string>)

  const DefaultStatus := 500
  const DefaultErrorCode := "SPOTIFY_API_ERROR"
  const ErrorPath := "/api/spotify"

  /** `new SpotifyApiException(message)`. */
  function FromMessage(message: string): (ex: SpotifyApiException)
    ensures ex.message == message && ex.cause.None?
    ensures ex.statusCode == 500 && ex.errorCode == "SPOTIFY_API_ERROR"
  {
    SpotifyApiException(message, DefaultStatus, DefaultErrorCode, None)
  }

  /** `new SpotifyApiException(message, statusCode)`. */
  function FromStatus(message: string, statusCode: int): (ex: SpotifyApiException)
    ensures ex.message == message && ex.cause.None?
    ensures ex.statusCode == statusCode && ex.errorCode == "SPOTIFY_API_ERROR"
  {
    SpotifyApiException(message, statusCode, DefaultErrorCode, None)
  }

  /** `new SpotifyApiException(message, statusCode, errorCode)`. */
  function FromCode(message: string, statusCode: int, errorCode: string): (ex: SpotifyApiException)
    ensures ex.message == message && ex.cause.None?
    ensures ex.statusCode == statusCode && ex.errorCode == errorCode
  {
    SpotifyApiException(message, statusCode, errorCode, None)
  }

  /** `new SpotifyApiException(message, cause)`. */
  function FromCause(message: string, cause: string): (ex: SpotifyApiException)
    ensures ex.message == message && ex.cause == Some(cause)
    ensures ex.statusCode == 500 && ex.errorCode == "SPOTIFY_API_ERROR"
  {
    SpotifyApiException(message, DefaultStatus, DefaultErrorCode, Some(cause))
  }

  /** The exceptions the handler distinguishes; `WebClientResponse` is an error reply from the Web API. */
  datatype Thrown =
    | ApiException(ex: SpotifyApiException)
    | WebClientResponse(status: int, message: string, responseBody: string)
    | IllegalArgument(detail: Option<string>)
    | Unexpected(detail: Option<string>)

  /** An error response: the HTTP status (also the body's `status` field), `error`, `message` and `path`. */
  datatype ErrorResponse = ErrorResponse(status: int, error: string, message: Option<string>, path: string)

  /** `getSpotifyErrorMessage`: fixed texts for 401, 403, 404 and 429; the reply body for 400; the exception's message otherwise. */
  function SpotifyErrorMessage(status: int, message: string, responseBody: string): (m: string)
    ensures status !in {400, 401, 403, 404, 429} ==> m == "Spotify API error: " + message
    ensures status == 400 ==> m == "Invalid request to Spotify API: " + responseBody
  {
    match status
    case 401 => "Authentication failed. Please check your Spotify credentials."
    case 403 => "Access forbidden. Please ensure you have the required Spotify permissions."
    case 404 => "Requested Spotify resource not found."
    case 429 => "Rate limit exceeded. Please try again later."
    case 400 => "Invalid request to Spotify API: " + responseBody
    case _ => "Spotify API error: " + message
  }

  /** The four handlers. */
  function Handle(t: Thrown): (r: ErrorResponse)
    ensures r.path == ErrorPath
    ensures t.ApiException? ==> r == ErrorResponse(t.ex.statusCode, t.ex.errorCode, Some(t.ex.message), ErrorPath)
    ensures t.WebClientResponse? ==> r.status == t.status && r.error == "EXTERNAL_API_ERROR"
                                     && r.message == Some(SpotifyErrorMessage(t.status, t.message, t.responseBody))
    ensures t.IllegalArgument? ==> r == ErrorResponse(400, "INVALID_ARGUMENT", t.detail, ErrorPath)
    ensures t.Unexpected? ==> r == ErrorResponse(500, "INTERNAL_SERVER_ERROR", Some("An unexpected error occurred"), ErrorPath)
  {
    match t
    case ApiException(ex) => ErrorResponse(ex.statusCode, ex.errorCode, Some(ex.message), ErrorPath)
    case WebClientResponse(status, message, body) =>
      ErrorResponse(status, "EXTERNAL_API_ERROR", Some(SpotifyErrorMessage(status, message, body)), ErrorPath)
    case IllegalArgument(detail) => ErrorResponse(400, "INVALID_ARGUMENT", detail, ErrorPath)
    case Unexpected(_) => ErrorResponse(500, "INTERNAL_SERVER_ERROR", Some("An unexpected error occurred"), ErrorPath)
  }

  /** An exception built with the defaults reaches the client as a 500 "SPOTIFY_API_ERROR" carrying its message. */
  lemma DefaultsReachClient(message: string, cause: string)
    ensures Handle(ApiException(FromMessage(message))) == ErrorResponse(500, "SPOTIFY_API_ERROR", Some(message), ErrorPath)
    ensures Handle(ApiException(FromCause(message, cause))) == Handle(ApiException(FromMessage(message)))
  {
  }

  /** The generic handler hides the exception's details: every unexpected exception gets the same response. */
  lemma UnexpectedHidesDetails(d1: Option<string>, d2: Option<string>)
    ensures Handle(Unexpected(d1)) == Handle(Unexpected(d2))
  {
  }

  /**
   * For a Web API error reply, the client sees the upstream message only for
   * statuses other than 400, 401, 403, 404 and 429, and the reply body only
   * for 400.
   */
  lemma WebClientMessageSources(status: int, m1: string, b1: string, m2: string, b2: string)
    ensures status != 400 && status in {401, 403, 404, 429} ==>
              Handle(WebClientResponse(status, m1, b1)) == Handle(WebClientResponse(status, m2, b2))
    ensures status == 400 ==> Handle(WebClientResponse(status, m1, b1)) == Handle(WebClientResponse(status, m2, b1))
    ensures status !in {400, 401, 403, 404, 429} ==> Handle(WebClientResponse(status, m1, b1)) == Handle(WebClientResponse(status, m1, b2))
  {
  }
}
