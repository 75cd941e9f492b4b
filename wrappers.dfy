/** Option and Result values for the source's `null` returns and thrown errors. */
module Wrappers {

  datatype Option<+T> = None | Some(value: T)

  /** A computation that either produced a value or threw an error carrying a message. */
  datatype Result<+T, +E> = Success(value: T) | Failure(error: E)
}
