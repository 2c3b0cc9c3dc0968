/// The optional value used wherever the Go code has a nil pointer, a nil
/// error or a missing map entry, and the value-or-error pair of a Go
/// function returning `(T, error)`.
module Wrappers {
  datatype Option<T> = None | Some(value: T)

  datatype Result<T> = Ok(value: T) | Err(error: string)
}
