/** Option and Result, the shapes the rest of the model uses for JavaScript's
    `undefined` and for operations that throw or reject. */
module Wrappers {

  /** A value that may be absent (`undefined` in the source). */
  datatype Option<+T> = None | Some(value: T)

  /** The outcome of an operation that either returns a value or fails with an error. */
  datatype Result<+T, +E> = Success(value: T) | Failure(error: E)
}
