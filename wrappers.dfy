/** Option and Result, the shapes the source's nullable values and `Result<T, String>` take. */
module Wrappers {

  datatype Option<+T> = None | Some(value: T)

  datatype Result<+T, +E> = Ok(value: T) | Err(error: E)
}
