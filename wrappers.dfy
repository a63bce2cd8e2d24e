/** Option and Result, used for Java's nullable references and for error returns. */
module Wrappers {

  /** A nullable Java reference: None stands for null. */
  datatype Option<T> = None | Some(value: T) {
    /** The value, or the given default when null (Java's `x != null ? x : d`). */
    function GetOr(default: T): T {
      match this
      case Some(v) => v
      case None => default
    }
  }

  /** The outcome of an operation that can fail with an error of type E. */
  datatype Result<T, E> = Ok(value: T) | Err(error: E)
}
