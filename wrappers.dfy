/** Option and Result, the shapes the source uses for absent values and errors. */
module Wrappers {

  datatype Option<+T> = None | Some(value: T) {
    function GetOr(default: T): T {
      match this
      case Some(v) => v
      case None => default
    }
  }

  /** A fallible result; `E` is whatever the source reports as its error. */
  datatype Result<+T, +E> = Ok(value: T) | Err(error: E)
}
