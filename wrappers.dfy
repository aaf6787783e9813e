/** Option and Result, the two failure-carrying wrappers the model uses. */
module Wrappers {

  /** `None` stands for Python's `None` and for a pandas NaN. */
  datatype Option<+T> = None | Some(value: T)

  /** The outcome of an operation that the source may abort with an exception. */
  datatype Result<+R, +E> = Ok(value: R) | Err(error: E)
}
