/** Failure-carrying values: the model's stand-ins for Python exceptions and for
    results that may be absent. */
module Results {

  datatype Option<+T> = None | Some(value: T)

  /** The outcome of an operation that returns a value or raises. */
  datatype Result<+T, +E> = Ok(value: T) | Err(error: E)

  /** The outcome of an operation that returns nothing or raises. */
  datatype Outcome<+E> = Pass | Fail(error: E)
}
