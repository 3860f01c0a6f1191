/** The errors a lifecycle operation reports through its callback. */
module Outcomes {

  /** `ValidationFailed` and `NotSaved` are raised by the runtime itself;
      `Raised` is an error passed through unchanged from a hook continuation
      or from the storage adapter. */
  datatype Error =
    | ValidationFailed
    | NotSaved
    | Raised(message: string)

  /** The `message` of the error object handed to the callback. */
  function Message(e: Error): string
  {
    match e
    case ValidationFailed => "validation failed"
    case NotSaved => "not saved"
    case Raised(m) => m
  }

  /** What a callback receives: no error, or one error. */
  datatype Outcome = Pass | Fail(error: Error)

  /** One entry of an instance's `errors` list, added by `error(attr, message)`. */
  datatype ValidationError = ValidationError(attr: string, message: string)
}
