/** Option and Result values standing in for Python's None checks and raised exceptions. */
module Wrappers {

  /** A value that may be absent: a failed conversion, a missing source. */
  datatype Option<+T> = None | Some(value: T)

  /** Either a value or the error the Python code would raise instead. */
  datatype Result<+R, +E> = Success(value: R) | Failure(error: E)
}
