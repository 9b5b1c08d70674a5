/**
  Failure values shared by the logger's capabilities. The Swift source signals a
  failure by throwing an arbitrary `Error`; here a throwing call returns an
  `Outcome` (no value) or a `Result` (a value), and the thrown error is a
  `Failure` carrying the text Swift would print for it.
 */
module Results {

  /** A thrown Swift `Error`, known only by its printed description. */
  datatype Failure = Failure(description: string)

  /** The result of a throwing call that returns nothing. */
  datatype Outcome = Pass | Fail(error: Failure)

  /** The result of a throwing call that returns a value. */
  datatype Result<+T> = Ok(value: T) | Err(error: Failure)

  datatype Option<+T> = None | Some(value: T)
}
