/** Option and Result, the two failure-carrying types the model uses. */
module Wrappers {

  /** A value that may be absent: Rust's `Option`. */
  datatype Option<+T> = None | Some(value: T)

  /** A value or an error: Rust's `Result`, and a panic modelled as a value. */
  datatype Result<+T, +E> = Success(value: T) | Failure(error: E)
}
