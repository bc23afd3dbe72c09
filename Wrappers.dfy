/** Optional values and success/failure results, the shapes the core's
    `value || default` reads and its thrown errors are modelled with. */
module Wrappers {

  /** A JavaScript value that may be absent (`undefined`/`null`) or present. */
  datatype Option<+T> = None | Some(value: T) {

    /** The present value, or `default` when absent. */
    function GetOr(default: T): T {
      match this
      case Some(v) => v
      case None => default
    }
  }

  /** A call that returns a value or throws an `Error` carrying a message. */
  datatype Result<+R, +E> = Success(value: R) | Failure(error: E)
}
