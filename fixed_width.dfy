/**
 * Fixed-width integer types used by the Ratekeeper interface: the C++ `int`
 * (32-bit signed, overflow undefined), `uint64_t` (wraps modulo 2^64) and the
 * `uint32_t` behind a `FileIdentifier`.
 */
module FixedWidth {

  const TWO_TO_THE_31: int := 0x8000_0000
  const TWO_TO_THE_64: int := 0x1_0000_0000_0000_0000

  newtype int32 = x: int | -0x8000_0000 <= x < 0x8000_0000
  newtype uint32 = x: int | 0 <= x < 0x1_0000_0000
  newtype uint64 = x: int | 0 <= x < 0x1_0000_0000_0000_0000

  /** True when `x` is representable as a C++ `int`. */
  predicate InInt32(x: int) {
    -TWO_TO_THE_31 <= x < TWO_TO_THE_31
  }

  /** `x + y` on `uint64_t`: the mathematical sum reduced modulo 2^64. */
  function AddUint64(x: uint64, y: uint64): (r: uint64)
    ensures r as int == x as int + y as int || r as int == x as int + y as int - TWO_TO_THE_64
    ensures r as int == x as int + y as int <==> x as int + y as int < TWO_TO_THE_64
    ensures y == 0 ==> r == x
  {
    ((x as int + y as int) % TWO_TO_THE_64) as uint64
  }

  /** Reducing a partial sum modulo 2^64 before adding more does not change the result. */
  lemma ModAddLeft(x: int, y: int)
    ensures (x % TWO_TO_THE_64 + y) % TWO_TO_THE_64 == (x + y) % TWO_TO_THE_64
  {
  }
}
