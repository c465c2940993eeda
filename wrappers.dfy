/** Failure-carrying datatypes shared by the model.
    - Option<T> stands for Rust's Option<T>.
    - Result<T, E> stands for Rust's Result<T, E>.
    - Outcome<T> separates a call that returns normally from one that panics
      (an `unwrap()` or `expect(..)` on a missing value). */
module Wrappers {

  datatype Option<+T> = None | Some(value: T) {
    function GetOr(default: T): T {
      match this
      case Some(v) => v
      case None => default
    }
  }

  datatype Result<+T, +E> = Ok(value: T) | Err(error: E)

  /** What a Rust call does: it returns a value, or it panics with a message. */
  datatype Outcome<+T> = Returns(value: T) | Panics(message: string)
}
