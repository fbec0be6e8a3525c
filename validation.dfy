/** The validation error record shared by every handler and exception. */
module Validation {

  /** A validation error: one message. */
  datatype Error = Error(message: string)
}
