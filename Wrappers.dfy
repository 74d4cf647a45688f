/** The outcome of an operation that raises an exception in the modelled program. */
module Wrappers {

  datatype Result<+T, +E> = Success(value: T) | Failure(error: E)
}
