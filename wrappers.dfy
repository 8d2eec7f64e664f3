/** Option and Result: absent values (`undefined`, `null`) and thrown errors of the front end. */
module Wrappers {

  /** A value that may be absent: an optional field or a nullable state slot. */
  datatype Option<+T> = None | Some(value: T)

  /** The outcome of an operation that either returns a value or throws an error with a message. */
  datatype Result<+T, +E> = Success(value: T) | Failure(error: E)
}
