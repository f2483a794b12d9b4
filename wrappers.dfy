/** Optional values (JavaScript's `null`/`undefined` next to a present value)
    and results of operations that can fail. */
module Wrappers {

  datatype Option<+T> = None | Some(value: T) {

    /** The value, or `default` when there is none (JavaScript's `x ?? default`). */
    function GetOr(default: T): T {
      match this
      case Some(v) => v
      case None => default
    }
  }

  /** A value, or the error an operation throws or reports. */
  datatype Result<+T, +E> = Success(value: T) | Failure(error: E)
}
