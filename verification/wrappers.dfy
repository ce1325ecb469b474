/** Failure-compatible wrappers shared by every module of the model. */
module Wrappers {

  /** A value that may be absent: a nil pointer, a missing map entry, an oracle that declined. */
  datatype Option<+T> = None | Some(value: T) {
    function GetOr(default: T): T {
      match this
      case Some(v) => v
      case None => default
    }
  }

  /** The `(value, error)` pair a Go function returns, with exactly one side meaningful. */
  datatype Result<+T, +E> = Ok(value: T) | Err(error: E) {
    predicate IsFailure() {
      Err?
    }

    function PropagateFailure<U>(): Result<U, E>
      requires Err?
    {
      Err(error)
    }

    function Extract(): T
      requires Ok?
    {
      value
    }
  }

  /** The bare `error` a Go function returns: nil, or an error value. */
  datatype Outcome<+E> = Pass | Fail(error: E)
}
