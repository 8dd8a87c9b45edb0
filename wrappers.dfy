/** Option and Result: the model's stand-in for Go's `(value, err)` return pairs. */
module Wrappers {

  /** The outcome of one fallible query: `Some(v)` when `err == nil`, `None` otherwise. */
  datatype Option<+T> = None | Some(value: T) {

    /** The value, or `default` when the query failed (the `if err != nil { x = default }` idiom). */
    function GetOr(default: T): T {
      match this
      case Some(v) => v
      case None => default
    }
  }

  datatype Result<+R, +E> = Success(value: R) | Failure(error: E)
}
