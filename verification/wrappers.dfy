/** Optional values and results with an error, for the Python `None` defaults and exceptions. */
module Wrappers {

  /** A value that may be absent, as a Python parameter defaulting to `None`. */
  datatype Option<+T> = None | Some(value: T)

  /** Either the value computed or the error raised. */
  datatype Result<+T, +E> = Success(value: T) | Failure(error: E)
}
