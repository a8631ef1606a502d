/** Option and Result types standing in for Go's nil pointers and (value, error) pairs. */
module Wrappers {

  /** A Go pointer or optional value: `None` is `nil`. */
  datatype Option<+T> = None | Some(value: T)

  /** A Go `(value, error)` return: `Err` carries the error's message text. */
  datatype Result<+T> = Ok(value: T) | Err(error: string)
}
