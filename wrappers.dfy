/** Failure-compatible wrappers shared by every module of the model. */
module Wrappers {

  /** A value that may be absent (`undefined`/`null` in TypeScript, `Option` in Rust). */
  datatype Option<+T> = None | Some(value: T) {
    function GetOr(default: T): T {
      match this
      case Some(v) => v
      case None => default
    }
  }

  /** The outcome of an operation that returns a value or fails with an error (a thrown exception or `Err`). */
  datatype Result<+T, +E> = Success(value: T) | Failure(error: E) {
    function GetOr(default: T): T {
      match this
      case Success(v) => v
      case Failure(_) => default
    }
  }

  /** The outcome of an operation that returns nothing or fails with an error. */
  datatype Outcome<+E> = Pass | Fail(error: E)
}
