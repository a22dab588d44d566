/** Optional values and fallible results, in the shape of Rust's Option and Result. */
module Wrappers {

  datatype Option<+T> = None | Some(value: T) {
    /** The value if present, otherwise `default` (Rust's `unwrap_or`). */
    function GetOr(default: T): T {
      match this
      case Some(v) => v
      case None => default
    }
  }

  datatype Result<+T, +E> = Ok(value: T) | Err(error: E)
}
