/** Failure-compatible wrappers used for the thrown errors of the library. */
module Wrappers {

  /** A value that may be absent: `None` stands for JavaScript's null/undefined. */
  datatype Option<+T> = None | Some(value: T)

  /** The outcome of a call made only for its effect: it either returns or throws. */
  datatype Outcome<+E> = Pass | Fail(error: E) {
    predicate IsFailure() { Fail? }
    function PropagateFailure(): Outcome<E>
      requires Fail?
    {
      this
    }
  }

  /** The outcome of a call that returns a value or throws. */
  datatype Result<+R, +E> = Ok(value: R) | Err(error: E) {
    predicate IsFailure() { Err? }
    function PropagateFailure<U>(): Result<U, E>
      requires Err?
    {
      Err(error)
    }
    function Extract(): R
      requires Ok?
    {
      value
    }
  }
}
