/** Optional values and settled outcomes shared by the model. */
module Wrappers {

  /** An optional value; `None` stands for JavaScript's `undefined`. */
  datatype Option<+T> = None | Some(value: T) {

    /** Returns the value held in `Some`, or `default` for `None`. */
    function GetOr(default: T): T {
      match this
      case Some(v) => v
      case None => default
    }
  }

  /** The settled outcome of an asynchronous call: a value or a failure. */
  datatype Result<+R, +E> = Success(value: R) | Failure(error: E)
}
