/** Optional values and results, standing for Kotlin's nullable types and thrown exceptions. */
module Wrappers {

  /** `None` plays the part of Kotlin's `null`. */
  datatype Option<+T> = None | Some(value: T) {
    function GetOr(default: T): T {
      match this
      case Some(v) => v
      case None => default
    }
  }

  /** A computation that either yields a value or throws an exception the source does not catch. */
  datatype Result<+T, +E> = Success(value: T) | Failure(error: E)
}
