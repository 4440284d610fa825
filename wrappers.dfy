/** Option, Result and Outcome datatypes for the adapter's nullable results and exceptions. */
module Wrappers {

  /** A value that may be absent; `None` stands for a C# `null` or an unset `Nullable<T>`. */
  datatype Option<+T> = None | Some(value: T)

  /** A value or the error (exception) that replaced it. */
  datatype Result<+R, +E> = Success(value: R) | Failure(error: E)

  /** Completion of an operation without a value: it passed or threw `error`. */
  datatype Outcome<+E> = Pass | Fail(error: E)
}
