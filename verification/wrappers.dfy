/** Python's `None`-able values and raised exceptions, modelled as
    `Option` and `Result`. */
module Wrappers {

  /** A value that may be Python's `None`. */
  datatype Option<+T> = None | Some(value: T) {

    /** The wrapped value, or `default` when this is `None`. */
    function GetOr(default: T): T {
      match this
      case Some(v) => v
      case None => default
    }
  }

  /** Either a normal return value or a raised exception. */
  datatype Result<+R, +E> = Success(value: R) | Failure(error: E)
}
