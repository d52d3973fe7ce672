/**
 * The firmware's `uint8_t` arithmetic, written out: both the counter
 * `value` and the refresher's `previous_value` are unsigned bytes, and
 * `value++` / `value--` wrap around modulo 256 (osd.c:50-51, 73, 89).
 */
module Bytes {

  /** An unsigned 8-bit integer. */
  type UInt8 = x: int | 0 <= x < 256

  datatype Option<T> = None | Some(value: T)

  /** `v++` on a `uint8_t`: 255 wraps to 0. */
  function Inc(v: UInt8): (r: UInt8)
    ensures r == if v == 255 then 0 else v + 1
  {
    (v + 1) % 256
  }

  /** `v--` on a `uint8_t`: 0 wraps to 255. */
  function Dec(v: UInt8): (r: UInt8)
    ensures r == if v == 0 then 255 else v - 1
  {
    (v - 1) % 256
  }

  /** Increment and decrement undo each other, so a clockwise detent followed
      by a counter-clockwise one leaves the counter where it was. */
  lemma IncDecInverse(v: UInt8)
    ensures Dec(Inc(v)) == v && Inc(Dec(v)) == v
  {
  }
}
