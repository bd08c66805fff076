/** Option and Result values shared by every module of the model. */
module Common {

  /** A value that may be absent: Python's `Optional[T]` (`None` or a value). */
  datatype Option<+T> = None | Some(value: T) {
    function GetOr(default: T): T {
      match this
      case Some(v) => v
      case None => default
    }
  }

  /** The outcome of an operation that may raise: `Ok` or the exception it raises. */
  datatype Result<+T, +E> = Ok(value: T) | Err(error: E)
}
