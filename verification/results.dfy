/** Failure-carrying values shared by the parsers of this model. */
module Results {

  /** A value that may be absent: `None` stands for JavaScript's `null`/`NaN`
      outcomes (a regular expression that does not match, a number that does
      not parse). */
  datatype Option<+T> = None | Some(value: T)

  /** The outcome of an operation that throws in the source: `Err` carries
      which exception would have been raised. */
  datatype Result<+T, +E> = Ok(value: T) | Err(error: E)
}
