/** Failure-carrying result types shared by the model. */
module Wrappers {

  /** A value that may be absent (JavaScript `undefined`, a regular expression that did not match). */
  datatype Option<+T> = None | Some(value: T)

  /** The outcome of an operation that can throw. */
  datatype Result<+T, +E> = Success(value: T) | Failure(error: E)
}
