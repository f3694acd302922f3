/** The optional value used throughout the model for Python's `None`-or-value
    results, and the outcome of an operation that may raise an error. */
module Wrappers {
  datatype Option<+T> = None | Some(value: T)

  datatype Result<+T> = Success(value: T) | Failure(error: string)
}
