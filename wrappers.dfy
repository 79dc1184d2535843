/** Optional values and results, standing for the source's `undefined`/`null` fields and its thrown errors. */
module Wrappers {

  /** A value that may be absent: `undefined` or `null` in the source. */
  datatype Option<+T> = None | Some(value: T) {

    /** The value when present, otherwise `default` (the source's `??` operator). */
    function GetOr(default: T): T {
      match this
      case Some(v) => v
      case None => default
    }
  }

  /** The outcome of an operation that may throw in the source. */
  datatype Result<+T, +E> = Success(value: T) | Failure(error: E)
}
