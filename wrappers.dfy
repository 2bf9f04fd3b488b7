/** Failure-carrying values used for the exceptions the configuration code raises. */
module Wrappers {

  datatype Option<+T> = None | Some(value: T)

  /** A computation that either produced a value or raised an error. */
  datatype Result<+T, +E> = Ok(value: T) | Err(error: E)

  /** A computation that produced nothing but may have raised an error. */
  datatype Outcome<+E> = Pass | Fail(error: E)
}
