/** Failure-carrying values shared by the rest of the model. */
module Wrappers {

  /** A value that may be absent. */
  datatype Option<+T> = None | Some(value: T)

  /** The smaller of two integers. */
  function Min(a: int, b: int): int {
    if a <= b then a else b
  }

  /** The larger of two integers. */
  function Max(a: int, b: int): int {
    if a >= b then a else b
  }
}
