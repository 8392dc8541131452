/** Optional values and results with an error kind, used for Python's `None` and for the
    exceptions the adaptor lets propagate. */
module Wrappers {

  datatype Option<T> = None | Some(value: T)

  datatype Result<T, E> = Ok(value: T) | Err(error: E)
}
