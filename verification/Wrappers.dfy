/** Optional values and results with an error, used in place of nil pointers and error returns. */
module Wrappers {

  datatype Option<+T> = None | Some(value: T)

  datatype Result<+T, +E> = Ok(value: T) | Error(error: E)
}
