/** Option and Result, as the rest of the model uses them. */
module Wrappers {
  datatype Option<+T> = None | Some(value: T)

  datatype Result<+T, +E> = Ok(value: T) | Err(error: E)

  /** A finite count for a condition. */
  function Bit(b: bool): nat { if b then 1 else 0 }
}
