/** Failure-compatible wrappers shared by every module of the model. */
module Wrappers {

  /** A value that may be missing: Python's `None` or an exception swallowed into `None`. */
  datatype Option<+T> = None | Some(value: T) {
    function GetOr(default: T): T {
      match this
      case Some(v) => v
      case None => default
    }
  }

  /** Success or the text of the exception that interrupted a computation. */
  datatype Result<+R> = Ok(value: R) | Err(error: string)
}
