/** Option and Result, the failure-carrying types the rest of the model uses. */
module Wrappers {

  /** A value that may be missing: `undefined` / `null` in the modelled code. */
  datatype Option<+T> = None | Some(value: T)

  /** The outcome of an operation that may throw. */
  datatype Result<+T, +E> = Success(value: T) | Failure(error: E)
}
