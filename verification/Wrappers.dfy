/** What several parts of the model share. */
module Wrappers {

  datatype Option<T> = None | Some(value: T)

  /** One byte, as a number. */
  type Byte = x: int | 0 <= x < 256

  /** One sample of sixteen bits. */
  type Sample = x: int | -0x8000 <= x < 0x8000

  function Power256(k: nat): (p: nat)
    ensures p > 0
  {
    if k == 0 then 1 else 256 * Power256(k - 1)
  }
}
