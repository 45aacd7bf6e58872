/** Option and Result values used across the bridge model. */
module Wrappers {

  datatype Option<+T> = None | Some(value: T) {
    /** The wrapped value, or `zero` when absent (Go's zero value after a failed decode). */
    function GetOr(zero: T): T {
      match this
      case Some(v) => v
      case None => zero
    }
  }

  datatype Result<+T, +E> = Success(value: T) | Failure(error: E)
}
