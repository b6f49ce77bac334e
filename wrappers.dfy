/** Optional values and results with an error, used for the puzzles' "no value" and
    "throws an exception" outcomes. */
module Wrappers {

  datatype Option<+T> = None | Some(value: T)

  /** `Err` stands for a Java exception that aborts the whole test; `error` says which one. */
  datatype Result<+T, +E> = Ok(value: T) | Err(error: E)
}
