// Optional values and error returns, standing for Python's None and for the
// exceptions that the colony code raises.
module Wrappers {

  datatype Option<+T> = None | Some(value: T)

  datatype Result<+R, +E> = Success(value: R) | Failure(error: E)

  datatype Outcome<+E> = Pass | Fail(error: E)

  /** The exceptions raised by the modelled code, with their messages. */
  datatype Error =
    | ValueError(message: string)       // Python ValueError
    | ValidationError(message: string)  // django.forms.ValidationError
    | IntegrityError                     // unique-name violation on save
}
