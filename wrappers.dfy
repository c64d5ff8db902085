/** Option and Result types shared by the punchcard modules. */
module Wrappers {

  datatype Option<+T> = None | Some(value: T)

  /** The outcome of an operation that either produces a value or fails. */
  datatype Result<+T, +E> = Ok(value: T) | Err(error: E)
}
