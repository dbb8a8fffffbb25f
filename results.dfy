/** Failure-carrying wrappers shared by the model: an optional value and a
    result that either holds a value or an error message (Go's `(T, error)`). */
module Results {

  datatype Option<+T> = None | Some(value: T)

  /** `Ok(v)` stands for a Go return `(v, nil)`, `Err(msg)` for `(nil, errors.New(msg))`. */
  datatype Result<+T> = Ok(value: T) | Err(error: string)
}
