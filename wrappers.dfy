/** Failure-carrying result types shared by every module of the model. */
module Wrappers {

  /** Python's `None` next to a present value. */
  datatype Option<+T> = None | Some(value: T) {
    function GetOr(default: T): T {
      match this
      case Some(v) => v
      case None => default
    }
  }

  /** Either a computed value or the exception that the source raises instead. */
  datatype Result<+T, +E> = Success(value: T) | Failure(error: E)
}
