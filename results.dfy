/**
 Small failure-carrying datatypes shared by the modules of the reminder job.
 An `Err` or `Fail` carries the `message` of the JavaScript `Error` that the
 source would throw at that point.
 */
module Results {

  /** A value that may be absent (`null` / `undefined` in the source). */
  datatype Option<+T> = None | Some(value: T)

  /** A computation that either yields a value or throws an error with a message. */
  datatype Result<+T> = Ok(value: T) | Err(message: string)

  /** A step with no value of interest that either settles normally or rejects. */
  datatype Outcome = Pass | Fail(message: string)
}
