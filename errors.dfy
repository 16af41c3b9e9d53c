/** Go's error values and the optional/failure wrappers used throughout the gateway model. */
module Errors {

  datatype Option<+T> = None | Some(value: T)

  /** A Go `(value, error)` pair where only one side is meaningful. */
  datatype Result<+T> = Ok(value: T) | Fail(error: Error)

  /** A Go error: a leaf error with its own text, or a cause wrapped by
      `fmt.Errorf("<context>: %w", cause)`. */
  datatype Error = Leaf(text: string) | Wrapped(context: string, cause: Error)

  /** `err.Error()`: the wrapping contexts, outermost first, then the leaf text. */
  function Message(e: Error): string
  {
    match e
    case Leaf(t) => t
    case Wrapped(c, cause) => c + ": " + Message(cause)
  }
}
