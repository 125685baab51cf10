/** Nullable values and error outcomes shared by every module of the model. */
module Wrappers {

  /** A Kotlin nullable value: `None` stands for `null`. */
  datatype Option<+T> = None | Some(value: T) {
    function GetOr(default: T): T {
      match this
      case Some(v) => v
      case None => default
    }
  }

  /** The result of a Kotlin call that either returns normally or throws `E`. */
  datatype Outcome<+E> = Pass | Fail(error: E)

  /** A value or the exception that was thrown instead. */
  datatype Result<+T, +E> = Success(value: T) | Failure(error: E)
}
