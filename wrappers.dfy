/** Failure-carrying results shared by the controller and game modules. */
module Wrappers {

  /** A value that may be missing, e.g. a Python function that falls off its end and yields None. */
  datatype Option<+T> = None | Some(value: T)

  /** A value or the error that was raised instead of producing it. */
  datatype Result<+T, +E> = Ok(value: T) | Err(error: E)
}
