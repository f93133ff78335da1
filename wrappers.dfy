/** Optional values and results with an error, used for JavaScript's null/undefined
    and for Python's None, and for thrown errors. */
module Wrappers {

  datatype Option<+T> = None | Some(value: T)

  datatype Result<+T, +E> = Ok(value: T) | Err(error: E)
}
