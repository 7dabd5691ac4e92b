/** Option and Result for the decoder. A failing operation carries the
    Python exception class the dashboard script would raise; both types can
    be used with `:-`, which plays the role of exception propagation. */
module Results {

  datatype Option<+T> = None | Some(value: T) {

    function GetOr(default: T): T {
      match this
      case Some(v) => v
      case None => default
    }
  }

  /** The built-in exceptions that malformed query data can raise. */
  datatype PyError = KeyError | IndexError | TypeError | AttributeError

  datatype Result<+T> = Ok(value: T) | Err(error: PyError) {

    predicate IsFailure() {
      Err?
    }

    function PropagateFailure<U>(): Result<U>
      requires Err?
    {
      Err(error)
    }

    function Extract(): T
      requires Ok?
    {
      value
    }
  }
}
