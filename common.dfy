/** Option and Result, used wherever the program handles a missing value or reports an error. */
module Common {

  /** A value that may be absent: JavaScript's `null`/`undefined`, or a parse that gave `NaN`. */
  datatype Option<T> = None | Some(value: T) {
    function GetOr(default: T): T {
      match this
      case Some(v) => v
      case None => default
    }
  }

  /** The outcome of an operation that either produces a value or reports an error. */
  datatype Result<T, E> = Ok(value: T) | Err(error: E)
}
