/** Option and Result, the two failure-carrying values used across the model.
    A Go `(*T, error)` pair becomes a `Result<T, string>`; a nil-able pointer an `Option<T>`. */
module Wrappers {

  datatype Option<+T> = None | Some(value: T) {
    function GetOr(default: T): T {
      match this
      case Some(v) => v
      case None => default
    }
  }

  datatype Result<+T, +E> = Success(value: T) | Failure(error: E)
}
