/** Failure-carrying values: every exception the services throw becomes a `Failure`. */
module Results {

  /** The exceptions the modelled code raises. */
  datatype Error =
    | ArgumentException(message: string)
    | ArgumentOutOfRangeException(paramName: string, actualValue: int, message: string)
    | DivideByZeroException

  /** A C# nullable reference: `None` stands for `null`. */
  datatype Option<+T> = None | Some(value: T)

  /** The value a call returns, or the exception it throws. */
  datatype Result<+T> = Success(value: T) | Failure(error: Error)

  /** The outcome of a call that returns nothing, or the exception it throws. */
  datatype Outcome = Pass | Fail(error: Error)
}
