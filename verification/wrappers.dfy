/** The Option and Result datatypes shared by the other modules. */
module Wrappers {

  /** `None` stands for a C# `null` reference or an absent value. */
  datatype Option<+T> = None | Some(value: T)

  /** The outcome of an operation that may throw. */
  datatype Result<+T, +E> = Success(value: T) | Failure(error: E)
}
