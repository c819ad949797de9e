/** Failure-compatible result types used throughout the model. */
module Wrappers {

  /** An optional value; `None` stands for a numeric result that is not a
      finite number (JavaScript's NaN or Infinity). */
  datatype Option<+T> = None | Some(value: T)

  /** A value or the error the source throws instead of returning one. */
  datatype Result<+T, +E> = Success(value: T) | Failure(error: E) {

    predicate IsFailure() {
      Failure?
    }

    function PropagateFailure<U>(): Result<U, E>
      requires Failure?
    {
      Failure(error)
    }

    function Extract(): T
      requires Success?
    {
      value
    }
  }
}
