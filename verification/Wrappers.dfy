/** Failure-compatible result types shared by the other modules. */
module Wrappers {

  datatype Option<+T> = None | Some(value: T)

  /** A Go call that returns either a value or a non-nil error. */
  datatype Result<+T, +E> = Success(value: T) | Failure(error: E)

  /** A Go call that either completes or dereferences nil and panics. */
  datatype Outcome<+T> = Ok(value: T) | Panic {
    predicate IsFailure() {
      Panic?
    }

    function PropagateFailure<U>(): Outcome<U>
      requires Panic?
    {
      Panic
    }

    function Extract(): T
      requires Ok?
    {
      value
    }
  }
}
