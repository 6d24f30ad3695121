/** Small failure-carrying datatypes shared by the other modules. */
module Wrappers {

  /** A value that may be absent: Python's `None` or an object. */
  datatype Option<+T> = None | Some(value: T)

  /** The outcome of an operation that either returns a value or raises. */
  datatype Result<+T, +E> = Ok(value: T) | Err(error: E)
}
