/** Failure-carrying datatypes shared by the modules of this model. */
module Wrappers {

  /** A value that may be absent: Python's `None` versus a present value. */
  datatype Option<+T> = None | Some(value: T)

  /** The outcome of an operation that may raise: a value, or the exception raised. */
  datatype Result<+T, +E> = Ok(value: T) | Err(error: E)
}
