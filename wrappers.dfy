/** Failure-compatible wrappers shared by every module of the model. */
module Wrappers {

  /** A value that may be absent: Python's None, Go's "key not present", JavaScript's null. */
  datatype Option<+T> = None | Some(value: T)

  /** The outcome of a call that can fail: Go's (value, error) pair, a Python exception,
      a rejected JavaScript promise. The error is the text the source would print. */
  datatype Result<+T, +E> = Success(value: T) | Failure(error: E)
}
