/** Failure-compatible result types shared by the rest of the model. */
module Wrappers {

  /** Rust's Option<T>. */
  datatype Option<+T> = None | Some(value: T) {

    /** Rust's `Option::map_or(default, identity)`: the held value, or `default`. */
    function GetOr(default: T): (r: T)
      ensures Some? ==> r == value
      ensures None? ==> r == default
    {
      match this
      case Some(v) => v
      case None => default
    }
  }

  /** Rust's Result<T, E>. */
  datatype Result<+T, +E> = Ok(value: T) | Err(error: E)

  /** Rust's Result<(), E>: success carries nothing. */
  datatype Outcome<+E> = Pass | Fail(error: E)
}
