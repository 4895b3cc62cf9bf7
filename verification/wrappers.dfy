/** Failure-carrying datatypes shared by the rest of the model. */
module Wrappers {

  /** A value that may be absent: Python's `None` versus a present value. */
  datatype Option<+T> = None | Some(value: T)

  /** The outcome of a call that either returns a value or raises an
      exception; the error is the exception's text, `str(e)`. */
  datatype Result<+T, +E> = Success(value: T) | Failure(error: E)
}
