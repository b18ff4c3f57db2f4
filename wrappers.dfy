/** Option and Result: how the model writes Python's `None` and its raised exceptions. */
module Wrappers {

  datatype Option<+T> = None | Some(value: T) {
    function GetOr(default: T): T {
      match this
      case Some(v) => v
      case None => default
    }
  }

  /** `Err` stands for an exception the Python code raises (or lets escape). */
  datatype Result<+T, +E> = Ok(value: T) | Err(error: E)
}
