/** Option and Result, used for the C# nulls and exceptions of the model. */
module Basics {

  /** A possibly-null reference: `None` stands for C#'s `null`. */
  datatype Option<+T> = None | Some(value: T)

  /** The value of an operation that may throw. */
  datatype Result<+T, +E> = Ok(value: T) | Err(error: E)
}
