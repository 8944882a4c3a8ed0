/** Fixed-width C integers and C's truncating remainder, written out
    explicitly because Dafny's integers are unbounded and its `%` is
    Euclidean. */
module Numeric {

  /** C `uint16_t`: the type of the stored heart rate. */
  type U16 = x: int | 0 <= x < 0x1_0000

  /** C `int16_t`. */
  type I16 = x: int | -0x8000 <= x < 0x8000

  /** C `int32_t`: the SDK's `HealthValue`, returned by the health peek. */
  type I32 = x: int | -0x8000_0000 <= x < 0x8000_0000

  /** A cast `(int16_t) v` of an `int32_t`. Out-of-range narrowing is
      implementation-defined in C; the watch's GCC/ARM toolchain keeps the
      low 16 bits and reads them as two's complement, which is what this
      states: the unique int16 congruent to `v` modulo 2^16. */
  function ToI16(v: I32): (r: I16)
    ensures (r - v) % 0x1_0000 == 0
    ensures -0x8000 <= v < 0x8000 ==> r == v
  {
    var low := v % 0x1_0000;
    if low < 0x8000 then low else low - 0x1_0000
  }

  /** The implicit conversion of an `int16_t` to `uint16_t` on assignment:
      C defines it as reduction modulo 2^16. */
  function I16ToU16(v: I16): (r: U16)
    ensures (r - v) % 0x1_0000 == 0
    ensures v >= 0 ==> r == v
  {
    if v < 0 then v + 0x1_0000 else v
  }

  /** C's `a % 10`, the only remainder the watchface takes: the remainder
      has the sign of the dividend (division truncates toward zero). */
  function CRem10(a: int): (r: int)
    ensures (a - r) % 10 == 0
    ensures -10 < r < 10
    ensures a >= 0 ==> r >= 0
    ensures a < 0 ==> r <= 0
    ensures r == 0 <==> a % 10 == 0
  {
    if a >= 0 then a % 10 else -((-a) % 10)
  }
}
