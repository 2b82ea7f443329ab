/** Failure-carrying values shared by every module of the model.

    The firmware signals failure by raising Python exceptions; the model returns
    them as values of `Error`, wrapped in `Result`. */
module Wrappers {

  datatype Option<+T> = None | Some(value: T) {
    predicate IsFailure() { None? }

    function PropagateFailure<U>(): Option<U>
      requires None?
    {
      None
    }

    function Extract(): T
      requires Some?
    {
      value
    }
  }

  /** The Python exception classes that the modelled code raises, catches or logs. */
  datatype Error =
    | KeyError(key: string)
    | AttributeError(attribute: string)
    | TypeError(reason: string)
    | ValueError(reason: string)
    | RuntimeError(reason: string)
    | IndexError
    | ZeroDivisionError
    | OSError
      /** A bare `raise Exception(...)`. */
    | Exception(reason: string)

  datatype Result<+T> = Ok(value: T) | Err(error: Error) {
    predicate IsFailure() { Err? }

    function PropagateFailure<U>(): Result<U>
      requires Err?
    {
      Err(error)
    }

    function Extract(): T
      requires Ok?
    {
      value
    }
  }
}
