/** Python's `None`-or-value, and the exceptions the modelled code raises or
    lets through, as values. */
module Wrappers {

  datatype Option<+T> = None | Some(value: T)

  /** An exception, by kind. `External` stands for whatever a remote service
      or client library raises, with the text `str(e)` gives for it;
      `HttpException` is FastAPI's `HTTPException(status_code, detail)`. */
  datatype PyException =
    | AssertionError
    | IndexError
    | AttributeError
    | TypeError
    | External(message: string)
    | HttpException(status: int, detail: string)

  /** A call that returns a value or raises. */
  datatype Outcome<+T> = Ok(value: T) | Raised(error: PyException)
}
