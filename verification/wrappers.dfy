/** Option and Result, the failure-compatible datatypes the rest of the model is written with. */
module Wrappers {

  /** An optional value: `None` plays the part of an absent field. */
  datatype Option<+T> = None | Some(value: T) {

    /** The value if present, otherwise `default` (the `??` operator of the source). */
    function GetOr(default: T): T {
      match this
      case Some(v) => v
      case None => default
    }
  }

  /** Either a value or a thrown error; usable with `:-`. */
  datatype Result<+R, +E> = Success(value: R) | Failure(error: E) {

    predicate IsFailure() {
      Failure?
    }

    function PropagateFailure<U>(): Result<U, E>
      requires Failure?
    {
      Failure(error)
    }

    function Extract(): R
      requires Success?
    {
      value
    }

    /** Applies `f` to the error of a failure and leaves a success alone. */
    function MapFailure<E2>(f: E -> E2): Result<R, E2> {
      match this
      case Success(v) => Success(v)
      case Failure(e) => Failure(f(e))
    }
  }
}
