/** Failure-compatible Option and Result, used with `:-` throughout the decoders. */
module Wrappers {

  datatype Option<+T> = None | Some(value: T) {
    predicate IsFailure() {
      None?
    }

    function PropagateFailure<U>(): Option<U>
      requires None?
    {
      None
    }

    function Extract(): T
      requires Some?
    {
      value
    }
  }

  datatype Result<+R, +E> = Ok(value: R) | Err(error: E) {
    predicate IsFailure() {
      Err?
    }

    function PropagateFailure<U>(): Result<U, E>
      requires Err?
    {
      Err(error)
    }

    function Extract(): R
      requires Ok?
    {
      value
    }

    /** Forgets the error, as serde does when a field decoder's error only makes the enclosing
        record fail. */
    function ToOption(): Option<R>
    {
      match this
      case Ok(v) => Some(v)
      case Err(_) => None
    }
  }
}
