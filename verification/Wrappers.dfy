/** An optional value, and a value or the error in its place. */
module Wrappers {
  datatype Option<+T> = None | Some(value: T)
  datatype Result<+T, +E> = Ok(value: T) | Err(error: E)
}
