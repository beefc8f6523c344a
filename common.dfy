/** Small shared vocabulary: an optional value and the HTTP error shape used by the API. */
module Common {

  /** A value that may be absent (Python's `None`, JavaScript's `null`/`undefined`). */
  datatype Option<+T> = None | Some(value: T) {
    function GetOr(default: T): T {
      match this
      case Some(v) => v
      case None => default
    }
  }

  function Min(a: int, b: int): int { if a <= b then a else b }
  function Max(a: int, b: int): int { if a >= b then a else b }

  /** An `HTTPException` raised by an endpoint: its status code and its `detail` text. */
  datatype ApiError = ApiError(status: int, detail: string)

  /** What an endpoint answers: the response body, or the exception it raised. */
  datatype Response<+T> = Ok(value: T) | Err(error: ApiError)
}
