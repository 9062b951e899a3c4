/** Option and Result: absent values (SQL NULL, Python None) and error returns. */
module Wrappers {

  datatype Option<+T> = None | Some(value: T) {
    function GetOr(default: T): T {
      match this
      case Some(v) => v
      case None => default
    }
  }

  datatype Result<+T, +E> = Ok(value: T) | Err(error: E)

  /** "Pass or fail" for operations that only report an error. */
  datatype Outcome<+E> = Pass | Fail(error: E)
}
