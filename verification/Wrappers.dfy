/** Results that may be missing or may fail. */
module Wrappers {

  datatype Option<+T> = None | Some(value: T)

  datatype Result<+T, +E> = Ok(value: T) | Err(error: E)

  function Max(a: int, b: int): int {
    if a >= b then a else b
  }

  /** Natural-number maximum, kept apart so that results stay natural. */
  function MaxNat(a: nat, b: nat): nat {
    if a >= b then a else b
  }
}
