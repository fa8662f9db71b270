/** Failure-compatible result types shared by every module of the model. */
module Wrappers {

  /** A value that may be absent; Python's `None` where a value is optional. */
  datatype Option<+T> = None | Some(value: T)

  /** Either a value or the exception a Python call would raise instead. */
  datatype Result<+R, +E> = Success(value: R) | Failure(error: E) {

    predicate IsFailure() {
      Failure?
    }

    function PropagateFailure<U>(): Result<U, E>
      requires Failure?
    {
      Failure(error)
    }

    function Extract(): R
      requires Success?
    {
      value
    }
  }

  /** A check that either passes or raises, with no value of its own. */
  datatype Outcome<+E> = Pass | Fail(error: E)
}
