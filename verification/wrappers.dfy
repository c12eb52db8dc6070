/** Optional values and error-carrying results, the two shapes the model needs
    for Go's nil pointers and its `(value, error)` returns. */
module Wrappers {

  /** A value that may be absent, as a Go pointer field may be nil. */
  datatype Option<+T> = None | Some(value: T) {

    /** The value, or `default` when absent. */
    function GetOr(default: T): T {
      match this
      case Some(v) => v
      case None => default
    }
  }

  /** Either a value or an error. */
  datatype Result<+T, +E> = Success(value: T) | Failure(error: E)
}
