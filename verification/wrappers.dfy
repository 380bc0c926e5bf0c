/** Absent values and error returns, shared by every model in this project. */
module Wrappers {

  /** Python's `None` versus a present value. */
  datatype Option<+T> = None | Some(value: T) {
    function GetOr(default: T): T {
      match this
      case Some(v) => v
      case None => default
    }
  }

  /** A value, or the exception a call raised. */
  datatype Result<+R, +E> = Ok(value: R) | Err(error: E)
}
