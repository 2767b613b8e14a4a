/** Failure-carrying values: the exceptions and missing values (NaN) of the plotting code. */
module Results {

  /** A value that may be missing, as a pandas cell that may hold NaN. */
  datatype Option<+T> = None | Some(value: T) {

    /** The value, or `default` when missing (pandas `fillna`). */
    function GetOr(default: T): T {
      match this
      case Some(v) => v
      case None => default
    }
  }

  /** The outcome of a call that may raise. */
  datatype Result<+T, +E> = Ok(value: T) | Err(error: E)
}
