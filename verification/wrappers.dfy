/** Option and Result, the two failure-carrying shapes the model uses for JavaScript's
    `undefined` and for thrown errors. */
module Wrappers {

  /** `None` stands for JavaScript's `undefined` (or NaN where a number is parsed). */
  datatype Option<+T> = None | Some(value: T) {

    /** The wrapped value, or `default` when there is none. */
    function GetOr(default: T): T {
      match this
      case Some(v) => v
      case None => default
    }
  }

  /** `Failure` stands for a thrown error or a rejected promise. */
  datatype Result<+R, +E> = Success(value: R) | Failure(error: E)
}
