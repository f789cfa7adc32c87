/** Failure-carrying values shared by the launcher's modules. */
module Wrappers {

  /** An optional value (Rust's `Option`). */
  datatype Option<+T> = None | Some(value: T) {
    function GetOr(default: T): T {
      match this
      case Some(v) => v
      case None => default
    }
  }

  /** A value or an error (Rust's `Result`, a settled JavaScript promise). */
  datatype Result<+T, +E> = Ok(value: T) | Err(error: E)

  /** Success, or a failure with its reason (Rust's `Result<(), E>`). */
  datatype Outcome<+E> = Pass | Fail(error: E)
}
