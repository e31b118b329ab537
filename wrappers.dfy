/** Failure-carrying values shared by the rest of the model. */
module Wrappers {

  /** A value that may be absent: Python's `None` or a missing result. */
  datatype Option<+T> = None | Some(value: T)

  /** Either a value or the error that was raised instead of producing it. */
  datatype Result<+T, +E> = Success(value: T) | Failure(error: E)

  /** The exceptions the modelled code raises or lets through. `ValueError`
      (and its subclasses) is the one kind the handlers single out; every
      other exception (NotImplementedError, a library error, a file-system
      error) is an `OtherError`. */
  datatype Exception = ValueError(message: string) | OtherError(message: string)
}
