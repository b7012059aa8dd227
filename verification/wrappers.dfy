/** Optional values and fallible results, used where the Java code returns null or throws. */
module Wrappers {

  /** A value that may be absent, standing for a Java reference that may be null. */
  datatype Option<+T> = None | Some(value: T) {

    /** The value, or `default` when absent. */
    function GetOr(default: T): T {
      match this
      case Some(v) => v
      case None => default
    }
  }

  /** The outcome of a call that may end in an unchecked exception. */
  datatype Result<+R, +E> = Success(value: R) | Failure(error: E)
}
