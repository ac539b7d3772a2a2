/** Option and Result: the shapes of Rust's Option<T> and Result<T, E>. */
module Wrappers {

  datatype Option<+T> = None | Some(value: T) {
    /** The value, or the given default when there is none (Rust's unwrap_or). */
    function GetOr(default: T): T {
      match this
      case Some(v) => v
      case None => default
    }
  }

  datatype Result<+T, +E> = Success(value: T) | Failure(error: E)
}
