/** Option and Result, the two failure-carrying datatypes the model uses. */
module Wrappers {

  /** A value that may be missing: Python's `None` or an unset environment variable. */
  datatype Option<+T> = None | Some(value: T) {

    /** `value` when present, otherwise `default`: `os.getenv(name, default)`, `dict.get(key, default)`. */
    function GetOr(default: T): T {
      match this
      case Some(v) => v
      case None => default
    }
  }

  /** The outcome of an operation that either returns a value or raises an error. */
  datatype Result<+T, +E> = Ok(value: T) | Err(error: E)
}
