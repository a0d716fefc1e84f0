/** Absent values, fail-fast outcomes and fallible results, shared by every module. */
module Wrappers {

  /** A value that may be absent: Python's `None` versus a set attribute. */
  datatype Option<+T> = None | Some(value: T)

  /** The outcome of a builder call: it either completed or raised a validation error. */
  datatype Outcome<+E> = Pass | Fail(error: E)

  /** A value, or the validation error raised while computing it. */
  datatype Result<+T, +E> = Ok(value: T) | Err(error: E)
}
