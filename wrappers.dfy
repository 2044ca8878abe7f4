/** Option and Result, used for the nullable references and the exceptions of the modelled code. */
module Wrappers {

  /** A reference that may be null: None stands for null. */
  datatype Option<+T> = None | Some(value: T)

  /** The outcome of an operation that either returns a value or throws. */
  datatype Result<+T, +E> = Success(value: T) | Failure(error: E)
}
