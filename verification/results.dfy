/** Failure-carrying values: the model's stand-in for Go's `(T, error)` pairs. */
module Results {

  /** Either a value or an error; the error is what a Go function returns
      alongside a zero value. */
  datatype Result<+T, +E> = Success(value: T) | Failure(error: E)

  /** An optional value, for inputs the environment may or may not provide. */
  datatype Option<+T> = None | Some(value: T)
}
