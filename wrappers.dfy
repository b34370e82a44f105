/** Failure-carrying values used throughout the model. */
module Wrappers {

  /** Python's "a value or None". */
  datatype Option<+T> = None | Some(value: T) {
    function GetOr(default: T): T {
      match this
      case Some(v) => v
      case None => default
    }
  }

  /** How a Python call ends: it returns a value, or an exception escapes it
      (the exception is represented by its message, `str(e)`). */
  datatype Outcome<+T> = Returned(value: T) | Raised(error: string)
}
