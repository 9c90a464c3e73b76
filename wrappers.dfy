/** Optional values: a storage key that may be missing, a parse that may yield NaN,
    a remote call whose promise may be rejected. */
module Wrappers {

  datatype Option<+T> = None | Some(value: T) {

    /** The value, or the given default when there is none (JavaScript's `??`). */
    function GetOr(default: T): T {
      match this
      case Some(v) => v
      case None => default
    }
  }
}
