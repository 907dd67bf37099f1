/** Option and Result, the shapes every fallible operation of the model returns. */
module Wrappers {

  datatype Option<+T> = None | Some(value: T)

  /** The success value of an operation, or the error it reported. */
  datatype Result<+T, +E> = Ok(value: T) | Err(error: E) {
    predicate IsFailure() { Err? }

    function PropagateFailure<U>(): Result<U, E>
      requires Err?
    {
      Err(error)
    }

    function Extract(): T
      requires Ok?
    {
      value
    }
  }
}
