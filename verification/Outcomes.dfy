/** The two result shapes every module shares. */
module Outcomes {

  datatype Option<+T> = None | Some(value: T)

  /** A Go `(value, error)` pair: exactly one half is present. */
  datatype Result<+T, +E> = Ok(value: T) | Err(error: E)
  {
    predicate IsFailure() {
      Err?
    }

    function PropagateFailure<U>(): Result<U, E>
      requires Err?
    {
      Err(error)
    }

    function Extract(): T
      requires Ok?
    {
      value
    }
  }
}
