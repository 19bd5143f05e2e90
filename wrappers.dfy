/** Option and Result: the model's stand-ins for `undefined` and for a rejected promise. */
module Wrappers {
  datatype Option<+T> = None | Some(value: T)

  datatype Result<+T, +E> = Success(value: T) | Failure(error: E)
}
