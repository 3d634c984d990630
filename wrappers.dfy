/** Optional values and outcomes shared by the model's modules. */
module Wrappers {

  /** Swift's `T?`. */
  datatype Option<+T> = None | Some(value: T) {
    /** `self ?? default` */
    function GetOr(default: T): (r: T)
      ensures Some? ==> r == value
      ensures None? ==> r == default
    {
      match this
      case Some(v) => v
      case None => default
    }
  }

  /** The result of a Swift function that `throws` and returns nothing. */
  datatype Outcome<+E> = Pass | Fail(error: E)

  /** A value or the error that a throwing computation raised instead. */
  datatype Result<+R, +E> = Success(value: R) | Failure(error: E)
}
