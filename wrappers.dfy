/** Failure-compatible wrappers: an optional value, and a value or the message
    of the exception that an external collaborator raised instead. */
module Wrappers {

  datatype Option<+T> = None | Some(value: T) {
    function GetOr(default: T): T {
      match this
      case Some(v) => v
      case None => default
    }
  }

  /** `Failure(message)` stands for a raised exception whose `str()` is `message`. */
  datatype Result<+T> = Success(value: T) | Failure(error: string)
}
