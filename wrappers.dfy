/** Option and Result, the two failure-carrying types used across the model. */
module Wrappers {

  /** A reading that may be missing (Python `None`). */
  datatype Option<+T> = None | Some(value: T)

  /** The outcome of code that may raise: `Err` carries the Python exception class. */
  datatype Result<+T> = Ok(value: T) | Err(error: string) {

    predicate IsFailure() {
      Err?
    }

    function PropagateFailure<U>(): Result<U>
      requires Err?
    {
      Err(error)
    }

    function Extract(): T
      requires Ok?
    {
      value
    }
  }
}
