/** Optional values and results. */
module Wrappers {

  datatype Option<+T> = None | Some(value: T)

  /** Anchor's `Result`: a value or an error. */
  datatype Result<+T, +E> = Ok(value: T) | Err(error: E) {

    predicate IsFailure() {
      Err?
    }

    function PropagateFailure<U>(): Result<U, E>
      requires Err?
    {
      Err(error)
    }

    function Extract(): T
      requires Ok?
    {
      value
    }
  }
}
