/** Option and Result: the "no value" and "error" outcomes of the modelled operations. */
module Wrappers {

  /** `None` stands for the source's `None` (a dictionary `get` that misses). */
  datatype Option<+T> = None | Some(value: T)

  /** `Err` stands for an exception the source lets escape. */
  datatype Result<+T, +E> = Ok(value: T) | Err(error: E)
}
