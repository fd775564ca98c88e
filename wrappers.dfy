/** Failure-compatible wrappers shared by every module of the model. */
module Wrappers {

  /** A value that may be absent (Python's `X | None`). */
  datatype Option<+T> = None | Some(value: T)

  /** The outcome of a call that may raise: its value, or the exception it raised. */
  datatype Result<+T, +E> = Success(value: T) | Failure(error: E)

  /** An exception raised by an opaque collaborator (vector store, model endpoint);
      the core never inspects it, it only records and re-raises it. */
  datatype Exception = Exception(kind: string, message: string)
}
