/** Small failure-carrying datatypes shared by the whole model. */
module Wrappers {

  /** A value that may be absent (JavaScript `undefined`/`null`). */
  datatype Option<+T> = None | Some(value: T) {

    /** The carried value, or `default` when absent. */
    function GetOr(default: T): T {
      match this
      case Some(v) => v
      case None => default
    }
  }

  /** The outcome of a step that either succeeds with a value or fails with a reason. */
  datatype Result<+T, +E> = Success(value: T) | Failure(error: E)
}
