/** Option and Result values used for the model's partial operations and rejected promises. */
module Wrappers {

  /** A value that may be missing, as the result of parsing a string into a URI. */
  datatype Option<+T> = None | Some(value: T)

  /** Either a value or an error: a resolved or a rejected promise. */
  datatype Result<+T, +E> = Success(value: T) | Failure(error: E)
}
