/** Failure-carrying values shared by every module of the model. */
module Wrappers {

  /** A value that may be absent: JavaScript's `undefined`/`null` results of `find`, `get` and `findById`. */
  datatype Option<+T> = None | Some(value: T)

  /** The outcome of an operation that can reject: the value, or the error the source throws or answers with. */
  datatype Result<+T, +E> = Ok(value: T) | Err(error: E)
}
