/** Option and Result: the tagged outcomes that replace the service's thrown errors. */
module Wrappers {

  datatype Option<+T> = None | Some(value: T)

  /** The outcome of a service operation: a value, or the error it would have thrown. */
  datatype Result<+T, +E> = Success(value: T) | Failure(error: E)
}
