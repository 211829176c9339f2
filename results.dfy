/** Failure-carrying return values: the planner's operations raise a
    validation error instead of returning, which the model returns as data. */
module Results {

  /** A value that may be absent: Python's None, Java's null. */
  datatype Option<+T> = None | Some(value: T)

  /** The value an operation returns, or the error it raises. */
  datatype Result<+T, +E> = Ok(value: T) | Err(error: E)

  /** The outcome of an operation that returns nothing (`void`, `-> None`). */
  datatype Outcome<+E> = Pass | Fail(error: E)
}
