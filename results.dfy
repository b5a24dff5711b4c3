/**
 * Error outcomes shared by every module of the model.
 *
 * Python raises exceptions; the model returns them. `PyError` names the
 * exception class the source raises, `Result` carries either a value or
 * that error, and `Outcome` is the result of an operation that only
 * changes state.
 */
module Results {

  /** The Python exception classes the modelled code raises. */
  datatype PyError =
    | ValueError
    | TypeError
    | IndexError
    | AssertionError
    | NotImplementedError
    | UnboundLocalError

  datatype Option<+T> = None | Some(value: T) {
    function GetOr(default: T): T {
      match this
      case Some(v) => v
      case None => default
    }
  }

  datatype Result<+T> = Ok(value: T) | Err(error: PyError)

  /** The outcome of a method that raises or returns normally. */
  datatype Outcome = Pass | Fail(error: PyError)
}
