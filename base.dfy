/** Option and Result, used across the model for `undefined` results and thrown errors. */
module Base {

  datatype Option<+T> = None | Some(value: T)

  /** A call that returns a value or throws an error. */
  datatype Result<+T, +E> = Success(value: T) | Failure(error: E)
}
