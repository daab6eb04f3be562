/** Option and Result wrappers used for the parser's exits. */
module Outcomes {

  /** What `next(iterator, None)` yields: a symbol, or nothing at the end. */
  datatype Option<+T> = None | Some(value: T)

  /** A value, or the error that aborted the computation. */
  datatype Result<+T, +E> = Ok(value: T) | Err(error: E)
}
