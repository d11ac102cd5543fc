/** Failure-carrying values: Rust's `Option<T>` and `Result<T, String>`. */
module Wrappers {

  datatype Option<+T> = None | Some(value: T)

  /** The error side is always a message string, as in every `Result<_, String>` of the library. */
  datatype Result<+T> = Ok(value: T) | Err(error: string)
}
