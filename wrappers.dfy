/** Option and Result, used for the values that the C# code returns or throws. */
module Wrappers {

  datatype Option<+T> = None | Some(value: T)

  /** A success value or an error value; failure-compatible, so `:-` propagates the error. */
  datatype Result<+T, +E> = Success(value: T) | Failure(error: E) {

    predicate IsFailure() {
      Failure?
    }

    function PropagateFailure<U>(): Result<U, E>
      requires Failure?
    {
      Failure(error)
    }

    function Extract(): T
      requires Success?
    {
      value
    }
  }
}
