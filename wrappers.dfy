/** Optional values and results with an error, as the JavaScript code uses `null` and thrown errors. */
module Wrappers {

  /** `null` (or `undefined`) versus a present value. */
  datatype Option<+T> = None | Some(value: T) {
    function GetOr(default: T): T {
      match this
      case Some(v) => v
      case None => default
    }
  }

  /** A value, or the message of the error thrown instead. */
  datatype Result<+T> = Success(value: T) | Failure(error: string)
}
