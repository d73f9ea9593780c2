/**
 * Option, Result and Outcome values, and the exceptions of the planner library.
 * A C++ function that returns a value or throws becomes a function or method
 * returning a Result; one that returns void or throws returns an Outcome.
 */
module Wrappers {

  datatype Option<+T> = None | Some(value: T)

  datatype Result<+T, +E> = Success(value: T) | Failure(error: E) {
    predicate IsFailure() { Failure? }

    function PropagateFailure<U>(): Result<U, E>
      requires Failure?
    {
      Failure(error)
    }

    function Extract(): T
      requires Success?
    {
      value
    }
  }

  datatype Outcome<+E> = Pass | Fail(error: E)

  /** The exception classes thrown by the library, each with the message given to its constructor. */
  datatype Error =
    | PlanGenerationException(message: string)
    | InvalidArgument(message: string)
    | RuntimeError(message: string)

  /** The text `what()` returns: PlanGenerationException prefixes its message. */
  function What(e: Error): string
  {
    match e
    case PlanGenerationException(m) => "PlanGenerationException: " + m
    case InvalidArgument(m) => m
    case RuntimeError(m) => m
  }
}
