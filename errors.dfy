/** The exceptions the checkers core raises, as values. */
module Errors {

  /** IllegalArgumentException and ArrayIndexOutOfBoundsException of the source. */
  datatype Error = IllegalArgument | IndexOutOfBounds

  /** Either the value an operation returns or the exception it throws. */
  datatype Result<+T> = Ok(value: T) | Err(error: Error)
}
