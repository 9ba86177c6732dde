/**
 * What a call to the music provider (or to the coordinator wrapping it) can
 * produce. A reactive `Mono` completes with one value, completes empty, or
 * fails with a throwable; the throwables that matter to the services are
 * the provider's HTTP errors (`WebClientResponseException`) and the two
 * `RuntimeException`s the token coordinator raises itself.
 */
module Upstream {
  import opened Wrappers

  datatype Error =
    | NoAccessToken                                                // "No access token available"
    | NoRefreshToken                                               // "No refresh token available"
    | HttpError(status: int, message: string, responseBody: string) // a non-2xx reply from the provider
    | Transport(detail: Option<string>)                            // any other throwable

  /** `Throwable.getMessage()` of the error. */
  function Message(e: Error): Option<string> {
    match e
    case NoAccessToken => Some("No access token available")
    case NoRefreshToken => Some("No refresh token available")
    case HttpError(_, m, _) => Some(m)
    case Transport(m) => m
  }

  /** The test in the retry wrapper: an HTTP error whose status code is 401. */
  predicate IsUnauthorized(e: Error) {
    e.HttpError? && e.status == 401
  }

  /** The completion of a `Mono<T>`. */
  datatype Outcome<+T> = Ok(value: T) | Empty | Fail(error: Error)
}
