/** Small shared vocabulary: optional values, results carrying an error message
    (Go's `(value, error)` pairs), and the HTTP status codes the handlers choose. */
module Common {

  datatype Option<+T> = None | Some(value: T)

  /** A Go `(T, error)` pair: either a value or the error's message. */
  datatype Result<+T> = Ok(value: T) | Err(msg: string) {
    predicate IsFailure() { Err? }

    function PropagateFailure<U>(): Result<U>
      requires Err?
    {
      Err(msg)
    }

    function Extract(): T
      requires Ok?
    {
      value
    }
  }

  /** A Go function that returns only an `error`. */
  datatype Outcome = Pass | Fail(msg: string)

  const StatusOK: int := 200
  const StatusCreated: int := 201
  const StatusBadRequest: int := 400
  const StatusNotFound: int := 404
  const StatusInternalServerError: int := 500
  const StatusServiceUnavailable: int := 503
}
