/** Helper datatypes shared by the configuration loader and the runner. */
module Wrappers {

  /** A value that may be absent; Python's `None` for an optional field. */
  datatype Option<+T> = None | Some(value: T)

  /** Either a value or the error that stopped the computation (Python's raised exception). */
  datatype Result<+R, +E> = Success(value: R) | Failure(error: E)
}
