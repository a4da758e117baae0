/** Optional values and results with an error, shared by the three models. */
module Wrappers {

  /** A value that may be absent: `None` stands for SQL NULL, an unset option or "no match". */
  datatype Option<+T> = None | Some(value: T)

  /** The outcome of an operation that can raise one of the source's argument errors. */
  datatype Result<+T, +E> = Ok(value: T) | Err(error: E)
}
