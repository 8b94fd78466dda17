/** The Option and Result types shared by the other modules. */
module Wrappers {

  /** A value that may be absent, as returned by the partial coercions. */
  datatype Option<+T> = None | Some(value: T)

  /** Rust's `Result<T, E>`: either a value or the error that stopped the computation. */
  datatype Result<+T, +E> = Ok(value: T) | Err(error: E)
}
