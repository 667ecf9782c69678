/** Values that may be absent and operations that may fail, as in the modelled sources' optional fields and throws. */
module Wrappers {

  datatype Option<+T> = None | Some(value: T)

  datatype Result<+T, +E> = Ok(value: T) | Err(error: E)
}
