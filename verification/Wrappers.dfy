/** Optional values and success/failure results shared by every module of the model. */
module Wrappers {

  /** A value that may be absent; stands for TypeScript's `T | undefined` and `T | null`. */
  datatype Option<+T> = None | Some(value: T) {

    /** The carried value, or `default` when there is none. */
    function GetOr(default: T): T {
      match this
      case Some(v) => v
      case None => default
    }
  }

  /** The outcome of an operation that can fail with an error of type E. */
  datatype Result<+R, +E> = Success(value: R) | Failure(error: E)
}
