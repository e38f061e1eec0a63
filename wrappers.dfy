/** Option and Result, used for Go's nil pointers and (value, error) returns. */
module Wrappers {

  /** A Go pointer or nil-able value: None stands for nil. */
  datatype Option<+T> = None | Some(value: T) {
    function GetOr(default: T): T {
      match this
      case Some(v) => v
      case None => default
    }
  }

  /** The outcome of a step that either produces a value or fails with an error. */
  datatype Result<+T, +E> = Success(value: T) | Failure(error: E)
}
