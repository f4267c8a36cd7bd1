/** Option and Result, the two failure-carrying shapes the program uses. */
module Wrappers {

  /** Rust's `Option<T>`. */
  datatype Option<+T> = None | Some(value: T)

  /** The crate's `Result<T>`; the error is carried only as a message. */
  datatype Result<+T> = Ok(value: T) | Err(error: string)
}
