/** The Option and Result datatypes shared by the other modules. */
module Wrappers {

  /** A value that may be absent: JavaScript's `undefined` for an optional flag or field. */
  datatype Option<+T> = None | Some(value: T) {
    function GetOr(default: T): T {
      match this
      case Some(v) => v
      case None => default
    }
  }

  /** Either a value or an error. */
  datatype Result<+T, +E> = Ok(value: T) | Err(error: E)
}
