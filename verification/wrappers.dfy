/** Failure-carrying datatypes used to model Rust's `Option`, `Result` and
    fallible operations whose only interesting output is success or an error. */
module Wrappers {

  /** Rust's `Option<T>`. */
  datatype Option<+T> = None | Some(value: T) {

    /** The wrapped value, or `default` when there is none (`unwrap_or`). */
    function GetOr(default: T): T {
      match this
      case Some(v) => v
      case None => default
    }
  }

  /** Rust's `Result<T, E>`. */
  datatype Result<+T, +E> = Success(value: T) | Failure(error: E)

  /** A fallible action with no value of interest (`Result<(), E>`). */
  datatype Outcome<+E> = Pass | Fail(error: E)
}
