/** Failure-carrying results shared by every module of the model. */
module Wrappers {

  /** A value that may be absent (Python `None`, JavaScript `null`/`undefined`). */
  datatype Option<+T> = None | Some(value: T) {
    function GetOr(default: T): T {
      match this
      case Some(v) => v
      case None => default
    }
  }

  /** The exceptions the modelled code raises, by Python class name. */
  datatype Error =
    | ValueError(msg: string)
    | RuntimeError(msg: string)
    | KeyError(key: string)
    | FileNotFoundError(path: string)
    | IndexError
    | ZeroDivisionError
    | TimeoutError(msg: string)
    | TypeError
    | AttributeError(attribute: string)
    | ValidationError(field: string)

  /** Either a value or the exception raised instead. */
  datatype Result<+T> = Ok(value: T) | Err(error: Error)
}
