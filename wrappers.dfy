/** Optional values and results with an error, shared by every module. */
module Wrappers {

  /** A value that may be missing: `undefined`/`null` in the source. */
  datatype Option<+T> = None | Some(value: T) {
    function GetOr(default: T): T {
      match this
      case Some(v) => v
      case None => default
    }
  }

  /** The outcome of an operation that may throw or reject. */
  datatype Result<+T, +E> = Ok(value: T) | Err(error: E)
}
