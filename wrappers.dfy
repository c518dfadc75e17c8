/** The Option and Result datatypes shared by the rest of the model. */
module Wrappers {

  /** A value that may be absent: a file that does not exist, a key that is missing. */
  datatype Option<+T> = None | Some(value: T)

  /** The outcome of an operation that the source can abort with an exception. */
  datatype Result<+R, +E> = Success(value: R) | Failure(error: E)
}
