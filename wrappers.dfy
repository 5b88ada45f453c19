/** Option and Result, the failure-carrying wrappers every other module uses. */
module Wrappers {

  /** A value that may be absent (JavaScript `undefined`, `null` or NaN, depending on the caller). */
  datatype Option<+T> = None | Some(value: T)

  /** The outcome of an operation that either produces a value or reports an error. */
  datatype Result<+T, +E> = Ok(value: T) | Err(error: E)
}
