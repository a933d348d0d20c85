/** Failure-carrying datatypes shared by the container model. */
module Wrappers {

  /** A value that may be absent; stands in for the "no id" sentinel of a
      thread-local slot. */
  datatype Option<+T> = None | Some(value: T)

  /** The outcome of an operation that the C++ code lets throw. */
  datatype Result<+T, +E> = Success(value: T) | Failure(error: E)
}
