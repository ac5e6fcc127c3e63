/** Failure-carrying return values: the model's counterpart of Go's `(value, error)`
    pairs and bare `error` returns. */
module Results {

  /** A value or an error, as a Go function returning `(T, error)`. */
  datatype Result<+T, +E> = Ok(value: T) | Err(error: E)

  /** Success or an error, as a Go function returning only `error`. */
  datatype Outcome<+E> = Pass | Fail(error: E)
}
