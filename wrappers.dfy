/** Optional values and results, standing in for Java's nullable references and thrown exceptions. */
module Wrappers {

  /** `None` is Java's `null`. */
  datatype Option<+T> = None | Some(value: T) {

    /** The value, or `default` when there is none. */
    function GetOr(default: T): T {
      match this
      case Some(v) => v
      case None => default
    }
  }

  /** A value, or the exception that evaluating it would throw. */
  datatype Result<+T, +E> = Success(value: T) | Failure(error: E)
}
