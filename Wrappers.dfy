/** Option and Result: the "maybe absent" and "value or error" shapes used
    throughout the model in place of `null`, `undefined` and thrown errors. */
module Wrappers {

  datatype Option<+T> = None | Some(value: T)

  datatype Result<+T, +E> = Success(value: T) | Failure(error: E)
}
