/** Option and Result, the two failure-carrying datatypes the model uses for
    Kotlin's nullable values and kotlin.Result. */
module Wrappers {

  /** A nullable value: `None` plays Kotlin's `null`. */
  datatype Option<+T> = None | Some(value: T) {
    /** The Elvis operator `?:`. */
    function GetOr(default: T): T {
      match this
      case Some(v) => v
      case None => default
    }
  }

  /** kotlin.Result: a success value or a failure. */
  datatype Result<+R, +E> = Success(value: R) | Failure(error: E)
}
