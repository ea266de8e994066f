/** Option and Result, used for absent descriptor fields and for the synthesis error path. */
module Wrappers {
  datatype Option<+T> = None | Some(value: T)

  datatype Result<+T, +E> = Ok(value: T) | Err(error: E)
}
