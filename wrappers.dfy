/** Failure-carrying results shared by the other modules. */
module Wrappers {

  /** A value that may be absent: a Go `(v, ok)` pair or a `(v, err)` pair whose error is dropped. */
  datatype Option<T> = None | Some(value: T)

  /** A value or an error message: a Go `(v, err)` pair whose error text matters. */
  datatype Result<T> = Ok(value: T) | Err(error: string)
}
