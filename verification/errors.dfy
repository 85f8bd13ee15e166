/** Python exceptions raised by the modelled code, and the result types
    that carry them instead of raising. */
module Errors {

  /** The exception classes the modelled functions raise. */
  datatype PyError =
    | KeyError
    | TypeError
    | ValueError
    | NotImplementedError
    | RuntimeError
    | ZeroDivisionError
    | UnboundLocalError
    | AttributeError

  /** A returned value, or the exception raised instead. */
  datatype Result<+T> = Ok(value: T) | Err(error: PyError)

  /** Completion without a value, or the exception raised instead. */
  datatype Outcome = Pass | Fail(error: PyError)

  datatype Option<+T> = None | Some(value: T)
}
