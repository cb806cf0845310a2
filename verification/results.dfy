/** Failure-carrying datatypes shared by the engine and the button handler. */
module Results {

  /** A value that may be absent, as Rust's `Option`. */
  datatype Option<+T> = None | Some(value: T)

  /** A value or an error, as Rust's `Result`. */
  datatype Result<+T, +E> = Ok(value: T) | Err(error: E)
}
