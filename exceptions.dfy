/**
 * Optional values and the exceptions the plot code raises or lets through.
 */
module Exceptions {

  datatype Option<T> = None | Some(value: T)

  /** The exceptions that can leave the modelled members. */
  datatype Error =
    | NPlotException(message: string)   // thrown by the library itself
    | NullReference                     // member access on a null reference
    | IndexOutOfRange                   // array or row index past the end
    | ArgumentOutOfRange                // ArrayList index past the end
    | InvalidCast                       // a cast to string, Array or IList that fails
    | ArgumentError                     // a row looked up by a missing or null column name

  /** The value of a member that may throw. */
  datatype Result<T> = Success(value: T) | Failure(error: Error) {
    predicate IsFailure() { Failure? }

    function PropagateFailure<U>(): Result<U>
      requires Failure?
    {
      Failure(error)
    }

    function Extract(): T
      requires Success?
    {
      value
    }
  }

  /** The outcome of a member that returns nothing but may throw. */
  datatype Outcome = Pass | Fail(error: Error)
}
