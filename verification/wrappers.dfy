/** Option and Result datatypes used to model JavaScript's absent values
    (`undefined`/`null`) and thrown errors. */
module Wrappers {

  /** A value that may be absent: a JSON field that is missing, or `null`. */
  datatype Option<+T> = None | Some(value: T) {

    /** The wrapped value, or `default` when absent. */
    function GetOr(default: T): (r: T)
      ensures Some? ==> r == value
      ensures None? ==> r == default
    {
      match this
      case Some(v) => v
      case None => default
    }
  }

  /** The outcome of an operation that may throw. */
  datatype Result<+R, +E> = Success(value: R) | Failure(error: E)
}
