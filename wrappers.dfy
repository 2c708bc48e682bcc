/** Optional values and error-or-value results, as used throughout the model. */
module Wrappers {

  /** A value that may be absent: a missing dictionary key, a `None`. */
  datatype Option<+T> = None | Some(value: T) {
    /** Python's `d.get(key, default)` once the key lookup has been done. */
    function GetOr(default: T): T {
      match this
      case Some(v) => v
      case None => default
    }
  }

  /** The outcome of an operation that may raise. */
  datatype Result<+T, +E> = Ok(value: T) | Err(error: E)
}
