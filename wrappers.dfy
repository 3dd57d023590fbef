/** Optional values and results, used for Kotlin's nullable types and for thrown exceptions. */
module Wrappers {

  /** A Kotlin `T?`: either absent or a value. */
  datatype Option<+T> = None | Some(value: T) {

    /** Kotlin's elvis operator `this ?: default`. */
    function GetOr(default: T): T {
      match this
      case Some(v) => v
      case None => default
    }
  }

  /** The outcome of a suspend call that either returns a value or throws. */
  datatype Result<+R, +E> = Success(value: R) | Failure(error: E)
}
