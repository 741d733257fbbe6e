/** Option and Result: the absent value and the thrown error of the source. */
module Wrappers {

  datatype Option<+T> = None | Some(value: T) {
    /** The value if there is one, otherwise `default` (a JavaScript default parameter). */
    function GetOr(default: T): T {
      match this
      case Some(v) => v
      case None => default
    }
  }

  datatype Result<+R, +E> = Success(value: R) | Failure(error: E)
}
