/** Option and Result values standing for Go's `(value, error)` returns and nil pointers. */
module Wrappers {

  datatype Option<+T> = None | Some(value: T)

  /** A Go `(T, error)` pair: `Ok` when the error is nil, `Err` with the error's message otherwise. */
  datatype Result<+T> = Ok(value: T) | Err(error: string)

  /** Outcome of a call into the SQL driver, the Redis client or another collaborator that
      the model does not see: it either succeeds or fails with a message. */
  datatype Outcome = Success | Failure(message: string)

  /** A Go `error` value that may be nil. */
  type Error = Option<string>

  function ErrorOf(o: Outcome): (e: Error)
    ensures e.None? <==> o.Success?
  {
    match o
    case Success => None
    case Failure(m) => Some(m)
  }
}
