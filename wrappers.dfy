/** Option and Result, the failure-carrying values every other module returns. */
module Wrappers {

  datatype Option<+T> = None | Some(value: T)

  /** Either a value or the error a JavaScript `throw` would have raised. */
  datatype Result<+T, +E> = Success(value: T) | Failure(error: E)

  /** An operation that returns nothing but may throw. */
  datatype Outcome<+E> = Pass | Fail(error: E)
}
