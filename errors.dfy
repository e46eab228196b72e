/**
 * Exceptions raised by the modelled code and the result types that carry them.
 * Python raises; the model returns `Err(e)` instead.
 */
module Errors {
  datatype Error =
    | TypeError
    | SyntaxError
    | ValueError
    | OverflowError
    | IndexError
    | AssertionError
    | RuntimeError
    | RuntimeWarning
    | AttributeError
    | StageOutOfRangeError
    | ConfigurationError
    | PositionOutOfBoundsError
    | PositionDirtyError
    | ControllerError
    | ZeroDivisionError
    | OSError
    /** Not an exception: numpy went on with `inf` or `nan`, where the model stops. */
    | NonFinite
    /** Not an exception: the loop would still be running after the rounds the model allows it. */
    | Diverges

  datatype Result<T> = Ok(value: T) | Err(error: Error)

  datatype Option<T> = None | Some(value: T)
}
