/** Option and Result, as Rust's, shared by the modules of this model. */
module Wrappers {

  /** An optional value, as Rust's `Option<T>`. */
  datatype Option<+T> = None | Some(value: T) {

    /** The wrapped value, or `default` when there is none (Rust's `unwrap_or`). */
    function UnwrapOr(default: T): T
    {
      match this
      case Some(v) => v
      case None => default
    }
  }

  /** A success value or an error, as Rust's `Result<T, E>`. */
  datatype Result<+T, +E> = Ok(value: T) | Err(error: E)
}
