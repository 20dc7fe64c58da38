/** Option and Result: the absent value of the host language and its raised errors. */
module Wrappers {

  /** A value that may be absent (the host language's `None`). */
  datatype Option<+T> = None | Some(value: T)

  /** Either a computed value or the error that the host language would raise. */
  datatype Result<+T, +E> = Ok(value: T) | Err(error: E) {
    predicate IsFailure() { Err? }

    function PropagateFailure<U>(): Result<U, E>
      requires Err?
    {
      Err(error)
    }

    function Extract(): T
      requires Ok?
    {
      value
    }
  }
}
