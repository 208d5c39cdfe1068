/** Optional values and success-or-error outcomes, used for Python's `None`
    and for the exceptions the handlers can raise. */
module Wrappers {

  datatype Option<+T> = None | Some(value: T)

  datatype Result<+T, +E> = Ok(value: T) | Err(error: E)
}
