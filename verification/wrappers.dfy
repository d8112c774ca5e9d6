/** Option, Result and Outcome: the shapes of the source's return values. */
module Wrappers {

  /** Rust's `Option<T>`. */
  datatype Option<+T> = None | Some(value: T)

  /** Rust's `Result<T, E>`. */
  datatype Result<+T, +E> = Ok(value: T) | Err(error: E)

  /** What a call does when it may also abort the thread (a Rust panic). */
  datatype Outcome<+T> = Returns(value: T) | Aborts
}
