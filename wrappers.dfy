/** Option and Result, the two failure-carrying shapes used by every other module. */
module Wrappers {

  /** A value that may be absent; `None` also stands for Go's nil. */
  datatype Option<+T> = None | Some(value: T)

  /** The `(value, error)` pair of a Go call: exactly one side is meaningful. */
  datatype Result<+T, +E> = Ok(value: T) | Err(error: E)
}
