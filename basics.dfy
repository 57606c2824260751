/** Option stands for a value the source may leave `null` or `undefined`;
    Result for a parse that yields either data or a list of errors. */
module Basics {

  datatype Option<+T> = None | Some(value: T)

  datatype Result<+T, +E> = Success(value: T) | Failure(error: E)
}
