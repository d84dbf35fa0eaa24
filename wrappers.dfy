/** Option and Result, the failure-carrying datatypes every other module uses. */
module Wrappers {

  /** A value that may be absent: `null`/`undefined` in the source. */
  datatype Option<+T> = None | Some(value: T) {
    function GetOr(default: T): T {
      match this
      case Some(v) => v
      case None => default
    }
  }

  /** The outcome of an operation that either produces a value or fails with an error. */
  datatype Result<+T, +E> = Ok(value: T) | Err(error: E)

  /** An HTTP error answer: the status code and the message of the JSON body. */
  datatype HttpError = HttpError(status: int, message: string)

  /** What a route handler answers: the JSON `data` on success, or an HTTP error. */
  type Response<T> = Result<T, HttpError>

  function Fail<T>(status: int, message: string): Response<T> {
    Err(HttpError(status, message))
  }
}
