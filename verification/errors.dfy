/** Error values and the failure-carrying wrappers shared by every part of the model. */
module Errors {

  /** The errors the render core can produce. `UnknownAlignment` is the
      package-level sentinel of the alignment codec; `ReadError` stands for any
      non-EOF error the CSV reader reports (its text is opaque to the core). */
  datatype Error = UnknownAlignment | ReadError(reason: string)

  /** An optional value; `None` plays the role of Go's `nil` error. */
  datatype Option<+T> = None | Some(value: T)

  /** A value or the error that prevented computing it. */
  datatype Result<+T> = Ok(value: T) | Fail(error: Error)
}
