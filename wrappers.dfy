/** Failure-carrying values shared by every module of the model. */
module Wrappers {

  /** An optional value: JavaScript's `undefined` where the source leaves a field out. */
  datatype Option<+T> = None | Some(value: T) {
    function GetOr(default: T): T {
      match this
      case Some(v) => v
      case None => default
    }
  }

  /** The outcome of an operation that either returns a value or raises an error. */
  datatype Result<+T, +E> = Success(value: T) | Failure(error: E)
}
