/** Optional values and results with an error, as the source expresses them
    with `undefined` and with thrown exceptions. */
module Wrappers {

  /** A value that may be absent (`T | undefined`). */
  datatype Option<+T> = None | Some(value: T) {

    /** The `??` operator: this value if present, otherwise `default`. */
    function GetOr(default: T): T {
      match this
      case Some(v) => v
      case None => default
    }
  }

  /** Either a returned value or the error a call throws. */
  datatype Result<+T, +E> = Success(value: T) | Failure(error: E)
}
