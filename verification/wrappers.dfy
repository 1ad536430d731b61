/** Optional values (JavaScript's `undefined`/`null`) and results of calls that may
    throw or reject (a value, or the error they fail with). */
module Wrappers {

  datatype Option<+T> = None | Some(value: T) {
    /** The value, or `d` when absent: JavaScript's `x ?? d` and destructuring defaults. */
    function GetOr(d: T): T {
      match this
      case Some(v) => v
      case None => d
    }
  }

  datatype Result<+T, +E> = Success(value: T) | Failure(error: E) {
    predicate IsFailure() {
      Failure?
    }

    function PropagateFailure<U>(): Result<U, E>
      requires Failure?
    {
      Failure(error)
    }

    function Extract(): T
      requires Success?
    {
      value
    }
  }
}
