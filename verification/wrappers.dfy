/** Option and Result, the two failure-carrying shapes the model uses in place
    of Python's `None` returns and raised exceptions. */
module Wrappers {

  datatype Option<+T> = None | Some(value: T) {

    /** Returns the value in Some, or the default when None (Python's `d.get(k, default)`). */
    function GetOr(default: T): T {
      match this
      case Some(v) => v
      case None => default
    }
  }

  /** Either a value or the exception the Python code would raise. */
  datatype Result<+R, +E> = Success(value: R) | Failure(error: E)
}
