/** Option and Result values used for the system's error returns. */
module Wrappers {

  datatype Option<+T> = None | Some(value: T)

  /** A call that either succeeds with a value or raises an error. Works with `:-`. */
  datatype Result<+T, +E> = Ok(value: T) | Err(error: E) {

    predicate IsFailure() {
      Err?
    }

    function PropagateFailure<U>(): Result<U, E>
      requires Err?
    {
      Err(error)
    }

    function Extract(): T
      requires Ok?
    {
      value
    }
  }
}
