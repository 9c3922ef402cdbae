/** A small Ok/Err result type for operations that can raise. */
module Wrappers {

  /** The value of an operation that either returns `value` or raises `error`. */
  datatype Result<+T, +E> = Ok(value: T) | Err(error: E)
}
