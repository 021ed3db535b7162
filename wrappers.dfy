/** Optional values and error-carrying results, used in place of the
    exceptions the graph code throws. */
module Wrappers {

  datatype Option<+T> = None | Some(value: T) {
    function GetOr(default: T): T {
      match this
      case Some(v) => v
      case None => default
    }
  }

  /** The value of a computation that may fail with an error. */
  datatype Result<+R, +E> = Success(value: R) | Failure(error: E)

  /** The outcome of a computation that only has side effects and may fail. */
  datatype Outcome<+E> = Pass | Fail(error: E)
}
