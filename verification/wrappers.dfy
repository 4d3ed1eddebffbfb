/** Failure-carrying datatypes shared by the rest of the model. */
module Wrappers {

  /** A value that may be missing: a failed `stat`, a failed read, a
      listing that could not be taken. */
  datatype Option<+T> = None | Some(value: T)

  /** The outcome of a computation that can abort with an error. */
  datatype Result<+R, +E> = Success(value: R) | Failure(error: E)
}
