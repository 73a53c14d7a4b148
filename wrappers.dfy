/** Optional values and results with an error, as used throughout the model. */
module Wrappers {

  /** A value that may be missing: a Ruby hash key that was not supplied, or `nil`. */
  datatype Option<+T> = None | Some(value: T) {
    function GetOr(default: T): T {
      match this
      case Some(v) => v
      case None => default
    }
  }

  /** The outcome of an operation that either returns a value or raises an exception. */
  datatype Result<+T, +E> = Ok(value: T) | Err(error: E)
}
