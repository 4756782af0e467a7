/** Option and Result, for JavaScript's `null`/`undefined` and for refused form input. */
module Wrappers {

  datatype Option<+T> = None | Some(value: T)

  datatype Result<+T, +E> = Ok(value: T) | Err(error: E)
}
