/** Option and Result, and the API error every service raises. */
module Wrappers {

  datatype Option<+T> = None | Some(value: T)

  datatype Result<+T, +E> = Ok(value: T) | Err(error: E)

  /** An expected error: HTTP status and stable code. */
  datatype ApiError = ApiError(status: int, code: string)

  /** What an `except Exception` clause sees: an `APIError`, or anything else. */
  datatype Failure = Expected(error: ApiError) | Unexpected

  const INTERNAL := ApiError(500, "internal_error")

  /** The error a failed request stores for its replays and sends to its stream. */
  function StoredError(failure: Failure): ApiError {
    match failure
    case Expected(error) => error
    case Unexpected => INTERNAL
  }
}
