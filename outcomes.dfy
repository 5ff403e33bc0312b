/** Values standing for the C# runtime's `null` and for exceptions that escape a call. */
module Outcomes {

  /** A nullable value: `None` is C#'s `null`. */
  datatype Option<+T> = None | Some(value: T)

  /** The .NET exceptions the quote clients can raise. */
  datatype Exception = DivideByZeroException | NullReferenceException

  /** How a call ends: it returns a value, or an exception escapes it. */
  datatype Completion<+T> = Returned(value: T) | Threw(exception: Exception)
}
