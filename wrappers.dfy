/** Option and Result: the model's stand-ins for Java's null / Optional and for thrown exceptions. */
module Wrappers {

  datatype Option<+T> = None | Some(value: T) {
    /** Optional.orElse */
    function GetOr(default: T): T {
      match this
      case Some(v) => v
      case None => default
    }

    /** Optional.or: this value when present, otherwise the alternative */
    function OrElse(alternative: Option<T>): Option<T> {
      match this
      case Some(_) => this
      case None => alternative
    }
  }

  datatype Result<+R, +E> = Success(value: R) | Failure(error: E)
}
