/** Failure-compatible wrappers used to model Python's raised exceptions as values. */
module Wrappers {

  datatype Option<+T> = None | Some(value: T)

  /** Either a value or the error that the Python code would have raised. */
  datatype Result<+R, +E> = Success(value: R) | Failure(error: E) {

    predicate IsFailure() {
      Failure?
    }

    function PropagateFailure<U>(): Result<U, E>
      requires Failure?
    {
      Failure(error)
    }

    function Extract(): R
      requires Success?
    {
      value
    }
  }

  /** The two exception classes the validators raise. */
  datatype ErrorKind = TypeError | ValueError
}
