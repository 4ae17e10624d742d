/** Failure-compatible result type, used for the Python exceptions the core can raise. */
module Wrappers {

  /** Either a value or the error that was raised instead of producing it. */
  datatype Result<+T, +E> = Ok(value: T) | Err(error: E) {

    predicate IsFailure() {
      Err?
    }

    function PropagateFailure<U>(): Result<U, E>
      requires Err?
    {
      Err(error)
    }

    function Extract(): T
      requires Ok?
    {
      value
    }
  }
}
