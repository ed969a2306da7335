/** Option and Result, the latter failure-compatible so that `:-` propagates a lookup error. */
module Wrappers {

  /** A dictionary entry that may be absent. */
  datatype Option<+T> = None | Some(value: T)

  /** The outcome of a computation that can raise an error. */
  datatype Result<+R, +E> = Success(value: R) | Failure(error: E) {

    predicate IsFailure() {
      Failure?
    }

    function PropagateFailure<U>(): Result<U, E>
      requires Failure?
    {
      Failure(error)
    }

    function Extract(): R
      requires Success?
    {
      value
    }
  }
}
