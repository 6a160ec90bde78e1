/** Failure-carrying values shared by the whole model. */
module Wrappers {

  datatype Option<+T> = None | Some(value: T)

  /** A value or the reason it could not be produced. */
  datatype Result<+T, +E> = Ok(value: T) | Err(error: E)

  /** A check that either passes or names why it failed. */
  datatype Outcome<+E> = Pass | Fail(error: E)
}
