/** Option and Result, used for .NET null references and thrown exceptions. */
module Wrappers {

  /** `None` stands for a .NET null reference (or, for a message getter, a getter that throws). */
  datatype Option<+T> = None | Some(value: T)

  /** `Failure` stands for an exception thrown out of the modelled operation. */
  datatype Result<+T, +E> = Success(value: T) | Failure(error: E)

  /** The exceptions the core throws itself. */
  datatype Exception =
    | ArgumentNull(paramName: string)
    | InvalidOperation(message: string)

  /** `string.IsNullOrEmpty`. */
  predicate IsNullOrEmpty(s: Option<string>)
  {
    s.None? || s.value == ""
  }
}
