/** Failure-compatible wrappers used throughout the model: `Option` for a value
    that may be absent (a quote the market source could not supply), and `Result`
    for a computation the source aborts with an exception. */
module Wrappers {

  datatype Option<+T> = None | Some(value: T) {
    function GetOr(default: T): T {
      match this
      case Some(v) => v
      case None => default
    }
  }

  /** `Failure` carries a short description of the exception the source raises. */
  datatype Result<+R> = Success(value: R) | Failure(error: string)
}
