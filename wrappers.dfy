/** Optional values and fallible results, used for the sentinel-free view of a goal
    request and for the startup configuration check. */
module Wrappers {

  datatype Option<+T> = None | Some(value: T) {

    /** The value held by Some, or `default` for None. */
    function GetOr(default: T): T {
      match this
      case Some(v) => v
      case None => default
    }
  }

  datatype Result<+R, +E> = Success(value: R) | Failure(error: E)
}
