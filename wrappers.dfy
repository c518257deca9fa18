/** Result types the invoicing model uses for values that may be absent and
    for operations that may fail. */
module Wrappers {

  /** A value that may be absent. */
  datatype Option<+T> = None | Some(value: T)

  /** A computed value, or the error that stopped the computation. */
  datatype Result<+T, +E> = Success(value: T) | Failure(error: E)

  /** An operation that either completed or failed with an error. */
  datatype Outcome<+E> = Pass | Fail(error: E)
}
