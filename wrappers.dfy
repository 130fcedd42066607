/** Failure-carrying wrappers used for the source's exceptions and `None` results. */
module Wrappers {

  datatype Option<+T> = None | Some(value: T)

  datatype Result<+T, +E> = Ok(value: T) | Err(error: E)

  /** The outcome of a call that returns nothing but may raise. */
  datatype Outcome<+E> = Pass | Fail(error: E)
}
