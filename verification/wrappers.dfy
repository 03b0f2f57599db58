/** Option and Result values used by the selection model. */
module Wrappers {

  /** A value that may be absent: Python's `None` or a falsy argument. */
  datatype Option<+T> = None | Some(value: T)

  /** The outcome of a call that either returns a value or raises an error. */
  datatype Result<+R, +E> = Ok(value: R) | Err(error: E)
}
