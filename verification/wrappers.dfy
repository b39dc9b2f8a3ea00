/** Failure-compatible datatypes used to model the exceptions of the service and the controller. */
module Wrappers {

  /** A value that may be absent (a Kotlin nullable). */
  datatype Option<+T> = None | Some(value: T)

  /** Either a value or the error (exception) that prevented computing it. */
  datatype Result<+R, +E> = Success(value: R) | Failure(error: E) {

    predicate IsFailure() {
      Failure?
    }

    function PropagateFailure<U>(): Result<U, E>
      requires Failure?
    {
      Failure(error)
    }

    function Extract(): R
      requires Success?
    {
      value
    }
  }
}
