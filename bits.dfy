/** Machine integer widths of the ATtiny firmware.
    Bytes that are used bit by bit (port values, code bytes, masks) are `bv8`;
    counters that are used arithmetically are integers kept in the range of their
    C type, and every wrap-around of the C code is written out with `Wrap8`,
    `Wrap16` or `Sub16`. */
module Bits {

  /** `uint8_t` */
  type uint8 = x: int | 0 <= x < 0x100

  /** `uint16_t`, which is also `unsigned int` on the AVR (where `int` has 16 bits) */
  type uint16 = x: int | 0 <= x < 0x1_0000

  /** The value an integer result has once it is stored in a `uint8_t`, for
      the results of one addition or subtraction of two `uint8_t` values:
      equal to `x` modulo 2^8. */
  function Wrap8(x: int): (r: uint8)
    requires -0x100 < x < 0x200
    ensures r == x || r == x + 0x100 || r == x - 0x100
  {
    if x < 0 then x + 0x100 else if x < 0x100 then x else x - 0x100
  }

  /** The value an integer result has once it is stored in a `uint16_t`, for
      the results of one addition or subtraction of two `uint16_t` values:
      equal to `x` modulo 2^16. */
  function Wrap16(x: int): (r: uint16)
    requires -0x1_0000 < x < 0x2_0000
    ensures r == x || r == x + 0x1_0000 || r == x - 0x1_0000
  {
    if x < 0 then x + 0x1_0000 else if x < 0x1_0000 then x else x - 0x1_0000
  }

  /** `k * a` in 16-bit `unsigned int` arithmetic. */
  function Mul16(k: nat, a: uint16): (r: uint16)
    ensures k * a < 0x1_0000 ==> r == k * a
  {
    (k * a) % 0x1_0000
  }

  /** `a - b` in 16-bit `unsigned int` arithmetic, as avr-gcc evaluates
      `uint16_t - int` (both operands are converted to `unsigned int`). */
  function Sub16(a: uint16, b: uint16): (r: uint16)
    ensures b <= a ==> r == a - b
    ensures a < b ==> r == 0x1_0000 + a - b
  {
    Wrap16(a - b)
  }
}
