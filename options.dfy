/** Optional values and failure-carrying results.
    `None` stands for the "no data" sentinel (NaN) of the numeric arrays. */
module Options {

  datatype Option<+T> = None | Some(value: T) {
    /** The wrapped value, or `default` for the "no data" sentinel. */
    function GetOr(default: T): T {
      match this
      case Some(v) => v
      case None => default
    }
  }

  /** The value of an operation that either returns or raises. */
  datatype Result<+R, +E> = Success(value: R) | Failure(error: E)

  /** The outcome of a check that returns nothing or raises. */
  datatype Outcome<+E> = Pass | Fail(error: E)
}
