/** Option and Result, used for Python's `None` and for errors that the source raises. */
module Wrappers {

  datatype Option<+T> = None | Some(value: T) {
    function GetOr(default: T): T {
      match this
      case Some(v) => v
      case None => default
    }
  }

  /** The outcome of an operation that may raise; `error` names the Python exception. */
  datatype Result<+T> = Ok(value: T) | Err(error: string)
}
