// Option and Result: the absent value and the raised exception of the Python
// code, as values.
module Wrappers {
  datatype Option<T> = None | Some(value: T)

  datatype Result<T, E> = Ok(value: T) | Err(error: E)
}
