/** Wrappers used across the model: a value that may be
    absent (a JSON key that is missing or has another type) and a value or an error. */
module Wrappers {

  datatype Option<+T> = None | Some(value: T)

  datatype Result<+T, +E> = Ok(value: T) | Err(error: E)
}
