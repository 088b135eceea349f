/**
 * The exception classes of the lottery system (utils/exceptions.py), as the
 * error half of a result datatype. Every class carries the message it was
 * raised with; `str(e)` of such an exception is that message.
 */
module Errors {

  datatype Error =
    | ValidationError(msg: string)
    | PredictionGenerationError(msg: string)
    | DataLoadError(msg: string)
    | AnalysisError(msg: string)
    | DatabaseError(msg: string)
    /** A Python built-in KeyError that a caller re-raises unchanged. */
    | KeyError(key: string)
    /** A Python built-in TypeError, for an operand of the wrong type. */
    | TypeError(msg: string)
    /** A Python built-in ValueError, as the pydantic field validators raise it. */
    | ValueError(msg: string)

  /** `str(e)`: the message, or the quoted key for a KeyError. */
  function Message(e: Error): string
  {
    if e.KeyError? then "'" + e.key + "'" else e.msg
  }

  datatype Result<+T> = Ok(value: T) | Err(error: Error)

  datatype Option<+T> = None | Some(value: T)
}
