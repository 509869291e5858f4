/** Option and Result, the two failure-carrying shapes the model uses. */
module Wrappers {

  /** A value that may be absent: JavaScript's `null`/`undefined`, Python's `None`, or a NaN from parsing. */
  datatype Option<+T> = None | Some(value: T) {
    function GetOr(default: T): T {
      match this
      case Some(v) => v
      case None => default
    }
  }

  /** An endpoint result: a value, or the HTTP error the endpoint raises. */
  datatype Result<+R, +E> = Success(value: R) | Failure(error: E)
}
