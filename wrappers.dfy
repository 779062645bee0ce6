/** Nullable references and exception-or-value results, as plain datatypes. */
module Wrappers {

  /** A Java reference that may be null: `None` stands for null. */
  datatype Option<+T> = None | Some(value: T) {
    function GetOr(default: T): T {
      match this
      case Some(v) => v
      case None => default
    }
  }

  /** The value a foreign call returns, or the message of the exception it throws. */
  datatype Result<+T, +E> = Success(value: T) | Failure(error: E)
}
