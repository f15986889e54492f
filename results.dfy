/** Optional values and error-or-value results, used wherever the Go code
    returns a nil pointer or an `error`. */
module Results {

  datatype Option<+T> = None | Some(value: T) {
    function GetOr(default: T): T {
      match this
      case Some(v) => v
      case None => default
    }
  }

  /** A Go `(value, error)` pair: the error message when the call failed. */
  datatype Result<+T> = Ok(value: T) | Err(message: string)
}
