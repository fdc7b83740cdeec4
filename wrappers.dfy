/** Option and Result datatypes shared by the modules of the model. */
module Wrappers {

  datatype Option<+T> = None | Some(value: T) {
    function GetOr(default: T): T {
      match this
      case Some(v) => v
      case None => default
    }
  }

  /** The outcome of an asynchronous operation: it resolves with a value or rejects with an error. */
  datatype Result<+R, +E> = Success(value: R) | Failure(error: E)
}
