/**
 * Option and Result, and the exceptions the library throws, as one closed
 * datatype: every operation that can throw returns a Result instead.
 */
module Wrappers {

  datatype Option<T> = None | Some(value: T)

  /** One constructor per exception class of the library (plus PHP's TypeError). */
  datatype Error =
    | DtoNotFound(dto: string)
    | InvalidDocComment(dto: string)
    | MissingValue(dto: string, property: string)
    | UnknownProperty(dto: string, property: string)
    | UnsetProperty(dto: string, property: string)
    | ImmutableDto(dto: string)
    | IncompatibleFlags(flags: seq<string>)
    | UnexpectedValue(message: string)
    | TypeError(message: string)

  datatype Result<T> = Success(value: T) | Failure(error: Error)
  {
    predicate IsFailure() { Failure? }

    function PropagateFailure<U>(): Result<U>
      requires Failure?
    {
      Failure(error)
    }

    function Extract(): T
      requires Success?
    {
      value
    }
  }
}
