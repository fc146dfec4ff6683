/** Option and Result types shared by the whole model. */
module Wrappers {

  /** A value that may be missing: JavaScript's `null`/`undefined`, PHP's `NULL`, Python's `None`. */
  datatype Option<+T> = None | Some(value: T) {
    function GetOr(default: T): T {
      match this
      case Some(v) => v
      case None => default
    }
  }

  /** The outcome of an operation that can throw. */
  datatype Result<+T, +E> = Ok(value: T) | Err(error: E)
}
