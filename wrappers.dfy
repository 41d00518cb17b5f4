/** The two failure-carrying wrappers the model uses in place of Python's
    `None` results and raised exceptions. */
module Wrappers {

  /** A value that may be absent, such as a dictionary lookup that misses. */
  datatype Option<+T> = None | Some(value: T)

  /** A computed value, or the error the Python code would have raised. */
  datatype Result<+T, +E> = Success(value: T) | Failure(error: E)
}
