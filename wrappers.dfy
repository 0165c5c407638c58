/** Option and the outcome of a Python expression that may raise. */
module Wrappers {

  datatype Option<+T> = None | Some(value: T)

  /** The value a Python expression evaluates to, or the exception it raises,
      identified by `str(e)`. Failure-compatible, so `:-` propagates a raise the
      way Python propagates an exception to the nearest `except`. */
  datatype Result<+T> = Ok(value: T) | Raise(message: string) {

    predicate IsFailure() {
      Raise?
    }

    function PropagateFailure<U>(): Result<U>
      requires Raise?
    {
      Raise(message)
    }

    function Extract(): T
      requires Ok?
    {
      value
    }
  }
}
