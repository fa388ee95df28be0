/** Option and Result values for the source's `Option<T>` and `Result<T, Error>` returns. */
module Wrappers {

  datatype Option<+T> = None | Some(value: T)

  datatype Result<+T, +E> = Ok(value: T) | Err(error: E)

  /** `Result<(), Error>`: success without a value, or an error. */
  datatype Outcome<+E> = Pass | Fail(error: E)
}
