/** Failure-carrying result types shared by the tracing model. */
module Wrappers {

  /** A Java reference that may be null. */
  datatype Option<+T> = None | Some(value: T)

  /** A value-returning Java call that either returns or throws. */
  datatype Result<+T, +E> = Ok(value: T) | Err(error: E)

  /** A void Java call that either returns normally or throws. */
  datatype Outcome<+E> = Pass | Fail(error: E)
}
