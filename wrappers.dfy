/** Option and Result: the absent-value and error-return shapes used across the model. */
module Wrappers {

  /** A value that may be absent (`T | null` or `T | undefined` in the source). */
  datatype Option<+T> = None | Some(value: T)

  /** The outcome of an operation that can throw: the value, or the error's message. */
  datatype Result<+T> = Success(value: T) | Failure(error: string)
}
