/** Failure-compatible Option and Result types shared by the engine's modules. */
module Wrappers {

  /** A value that may be missing; `None` plays the part of a pandas NaN. */
  datatype Option<+T> = None | Some(value: T)

  /** The outcome of an operation that can raise: `Err` carries the raised error. */
  datatype Result<+T, +E> = Ok(value: T) | Err(error: E) {

    predicate IsFailure() {
      Err?
    }

    function PropagateFailure<U>(): Result<U, E>
      requires Err?
    {
      Err(error)
    }

    function Extract(): T
      requires Ok?
    {
      value
    }
  }
}
