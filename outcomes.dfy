/** Optional values and the failures a texture operation can throw. */
module Outcomes {

  datatype Option<T> = None | Some(value: T)

  /** The exceptions thrown by the texture, each carrying what its message names. */
  datatype Error =
    | ContextMismatch                            // a second WebGL context was passed to bind
    | InvalidChannelCount(channels: int)         // getFormat saw a count other than 1, 2 or 4
    | FloatTexturesUnsupported                   // Float32Array data without the float extension
    | SizeMismatch(expected: int, actual: int)   // insertData got the wrong number of elements

  /** The outcome of an operation that returns nothing useful or throws. */
  datatype Outcome = Pass | Fail(error: Error)

  /** The outcome of an operation that returns a value or throws. */
  datatype Result<T> = Ok(value: T) | Err(error: Error)
}
