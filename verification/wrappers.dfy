/** Option and Result, and the Python exceptions the modelled code raises. */
module Wrappers {

  datatype Option<+T> = None | Some(value: T) {
    function GetOr(default: T): T {
      match this
      case Some(v) => v
      case None => default
    }
  }

  /** The exceptions raised by the modelled code, with the message each carries. */
  datatype Raised =
    | ValueError(message: string)
    | RuntimeError(message: string)
    | FileNotFoundError(message: string)
    | TypeError(message: string)
    | AttributeError(name: string)
    | HTTPError(status: int)
    | ZeroDivisionError

  /** A value, or the exception a Python function raised instead of returning. */
  datatype Result<+T> = Ok(value: T) | Err(error: Raised) {
    predicate IsFailure() { Err? }
    function PropagateFailure<U>(): Result<U>
      requires Err?
    {
      Err(error)
    }
    function Extract(): T
      requires Ok?
    {
      value
    }
  }
}
