/** Option and Result, the two wrappers the rest of the model is written with. */
module Base {

  /** A value that may be absent: an unset key of a JSON object, say. */
  datatype Option<+T> = None | Some(value: T) {

    /** The value when present, the default otherwise. */
    function GetOr(default: T): T {
      match this
      case Some(v) => v
      case None => default
    }
  }

  /** The outcome of an operation that may throw (or reject): a value or a failure. */
  datatype Result<+T, +E> = Ok(value: T) | Err(error: E)
}
