/** Option and Result values for the "no value" and error paths of the model. */
module Results {

  /** A value that may be absent: a missing dictionary key, a `None` return. */
  datatype Option<+T> = None | Some(value: T) {

    /** The value, or `default` when absent (Python's `dict.get(key, default)`). */
    function GetOr(default: T): T
    {
      match this
      case Some(v) => v
      case None => default
    }
  }

  /** Either a computed value or the error the source raises instead. */
  datatype Result<+R, +E> = Success(value: R) | Failure(error: E)
}
