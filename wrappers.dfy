/** Optional values and results with an error, for the engine's `undefined`
    fields and thrown errors. */
module Wrappers {

  datatype Option<+T> = None | Some(value: T) {
    /** `value || default` for a value that may be `undefined`. */
    function GetOr(default: T): T
    {
      match this
      case Some(v) => v
      case None => default
    }
  }

  datatype Result<+R, +E> = Success(value: R) | Failure(error: E)
}
