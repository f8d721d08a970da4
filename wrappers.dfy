/** Kotlin's nullable values and kotlin.Result, as datatypes. */
module Wrappers {

  /** A nullable value: `None` plays the part of Kotlin's `null`. */
  datatype Option<+T> = None | Some(value: T) {
    /** The Elvis operator `x ?: default`. */
    function GetOr(default: T): T {
      match this
      case Some(v) => v
      case None => default
    }
  }

  /** kotlin.Result: a success value or the message of the exception it failed with. */
  datatype Result<+T, +E> = Success(value: T) | Failure(error: E)
}
