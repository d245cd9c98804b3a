/** Failure-carrying values used in place of exceptions and absent values. */
module Wrappers {

  datatype Option<+T> = None | Some(value: T)

  /** A successful value, or the message of the error that was thrown. */
  datatype Result<+R, +E> = Ok(value: R) | Err(error: E)

  /** Either nothing went wrong, or the error that was thrown. */
  datatype Outcome<+E> = Pass | Fail(error: E)
}
