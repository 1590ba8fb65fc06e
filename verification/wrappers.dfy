/** The outcome of an operation that can fail with a configuration error. */
module Wrappers {

  datatype Result<+T, +E> = Success(value: T) | Failure(error: E)
}
