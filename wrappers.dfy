/** Option and Result values shared by all modules of the model. */
module Wrappers {

  datatype Option<+T> = None | Some(value: T) {
    /** The wrapped value, or `default` when there is none (Python's `x or default`). */
    function GetOr(default: T): T {
      match this
      case Some(v) => v
      case None => default
    }
  }

  /** The outcome of an operation that may raise: `Err` carries the exception. */
  datatype Result<+T, +E> = Ok(value: T) | Err(error: E)
}
