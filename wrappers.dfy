/** Option and Result: the "missing value" and "raised an exception" outcomes of the
    Python code, made explicit. */
module Wrappers {

  datatype Option<+T> = None | Some(value: T) {
    function GetOr(default: T): T {
      match this
      case Some(v) => v
      case None => default
    }
  }

  /** A Python call either returns a value or raises; `Raise` carries the exception kind. */
  datatype Result<+T, +E> = Ok(value: T) | Raise(error: E) {
    predicate IsOk() { Ok? }
  }
}
