/** Option and Result, the two failure-carrying values the model needs. */
module Wrappers {

  /** An optional argument: `None` stands for an omitted (undefined) argument. */
  datatype Option<+T> = None | Some(value: T) {
    function GetOr(default: T): T {
      match this
      case Some(v) => v
      case None => default
    }
  }

  /** A value or an error message (a thrown `Error` or a rejected promise). */
  datatype Result<+T, +E> = Success(value: T) | Failure(error: E)
}
