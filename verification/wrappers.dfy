/** Small failure-carrying datatypes shared by the rest of the model. */
module Wrappers {

  /** A value that may be absent: JavaScript's `null`/`undefined` alternatives. */
  datatype Option<+T> = None | Some(value: T)

  /** The outcome of an operation that may throw: a value or the error it threw. */
  datatype Result<+T, +E> = Success(value: T) | Failure(error: E)
}
