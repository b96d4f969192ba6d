/** Option and Result, used throughout the model. */
module Wrappers {

  /** An optional value: `None` stands for Ruby's `nil`. */
  datatype Option<+T> = None | Some(value: T)

  /** A value or the error that was raised instead of producing it. */
  datatype Result<+T, +E> = Success(value: T) | Failure(error: E)
}
