/** Machine-level vocabulary shared by every driver of the firmware: bytes,
    the 32-bit millisecond counter with its wrap-around arithmetic, and the
    float-to-unsigned conversion the controllers apply to durations. */
module Mcu {

  type byte = bv8

  const TWO_32: int := 0x1_0000_0000
  const U32_MAX: int := 0xFFFF_FFFF

  /** An `unsigned long` / `uint32_t` of the ESP32. */
  type u32 = x: int | 0 <= x < 0x1_0000_0000

  datatype Option<T> = None | Some(value: T)

  /** Unsigned subtraction `a - b` on 32 bits (wraps when b > a). */
  function Sub32(a: u32, b: u32): (r: u32)
    ensures a >= b ==> r == a - b
    ensures a < b ==> r == a - b + TWO_32
  {
    (a - b) % TWO_32
  }

  /** Unsigned addition `a + b` on 32 bits (wraps past 2^32 - 1). */
  function Add32(a: u32, b: u32): (r: u32)
    ensures a + b < TWO_32 ==> r == a + b
    ensures a + b >= TWO_32 ==> r == a + b - TWO_32
  {
    (a + b) % TWO_32
  }

  /** `static_cast<unsigned long>(x)` for a float x: truncation toward zero.
      C++ leaves negative and too-large values undefined; this model
      saturates them at 0 and 2^32 - 1. */
  function CastToU32(x: real): (r: u32)
    ensures 0.0 <= x < TWO_32 as real ==> r as real <= x < r as real + 1.0
    ensures x <= 0.0 ==> r == 0
    ensures x >= TWO_32 as real ==> r == U32_MAX
  {
    if x <= 0.0 then 0
    else if x >= TWO_32 as real then U32_MAX
    else x.Floor
  }

  function Min(a: int, b: int): int { if a <= b then a else b }

  function MaxReal(a: real, b: real): (r: real)
    ensures r >= a && r >= b && (r == a || r == b)
  {
    if a >= b then a else b
  }

  /** Arduino's `constrain(x, lo, hi)` macro: `x < lo ? lo : (x > hi ? hi : x)`. */
  function Constrain(x: real, lo: real, hi: real): (r: real)
    ensures lo <= hi ==> lo <= r <= hi
    ensures lo <= x <= hi ==> r == x
  {
    if x < lo then lo else if x > hi then hi else x
  }
}
