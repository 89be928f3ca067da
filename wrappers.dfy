/** Failure-compatible result types shared by every stage of the interpreter. */
module Wrappers {

  datatype Option<+T> = None | Some(value: T)

  /** `Ok` or `Err`, usable with `:-` in methods. */
  datatype Result<+T, +E> = Ok(value: T) | Err(error: E) {

    predicate IsFailure() {
      Err?
    }

    function PropagateFailure<U>(): Result<U, E>
      requires Err?
    {
      Err(error)
    }

    function Extract(): T
      requires Ok?
    {
      value
    }
  }
}
