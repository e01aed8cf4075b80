/** Option and Result, the failure-compatible wrappers used throughout the model. */
module Wrappers {
  datatype Option<+T> = None | Some(value: T) {
    /** `x || d` in JavaScript, for a value that is either present or absent. */
    function GetOr(default: T): T {
      match this
      case Some(v) => v
      case None => default
    }
  }

  datatype Result<+T, +E> = Ok(value: T) | Err(error: E)
}
