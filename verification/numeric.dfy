/**
 * Fixed-width integer semantics of the on-chain runtime.
 *
 * Every record field has a Rust width (u8, u16, u64, u128, i64). The model keeps
 * integers unbounded and makes each width a subset type, so that every
 * `checked_*`, `saturating_*`, wrapping cast and unchecked operator of the
 * program has to be written out explicitly.
 */
module Numeric {

  const U8_MAX: int := 0xFF
  const U16_MAX: int := 0xFFFF
  const U32_MAX: int := 0xFFFF_FFFF
  const U64_MAX: int := 0xFFFF_FFFF_FFFF_FFFF
  const U128_MAX: int := 0xFFFF_FFFF_FFFF_FFFF_FFFF_FFFF_FFFF_FFFF
  const I64_MIN: int := -0x8000_0000_0000_0000
  const I64_MAX: int := 0x7FFF_FFFF_FFFF_FFFF

  type U8 = x: int | 0 <= x <= 0xFF
  type U16 = x: int | 0 <= x <= 0xFFFF
  type U64 = x: int | 0 <= x <= 0xFFFF_FFFF_FFFF_FFFF
  type U128 = x: int | 0 <= x <= 0xFFFF_FFFF_FFFF_FFFF_FFFF_FFFF_FFFF_FFFF
  type I64 = x: int | -0x8000_0000_0000_0000 <= x <= 0x7FFF_FFFF_FFFF_FFFF

  datatype Option<+T> = None | Some(value: T)

  function Min(a: int, b: int): int { if a <= b then a else b }

  function Max(a: int, b: int): int { if a >= b then a else b }

  /** `checked_add` on an unsigned type whose largest value is `max`. */
  function CheckedAdd(a: int, b: int, max: int): (r: Option<int>)
    requires 0 <= a && 0 <= b
    ensures r.Some? <==> a + b <= max
    ensures r.Some? ==> r.value == a + b && 0 <= r.value
  {
    if a + b <= max then Some(a + b) else None
  }

  /** `checked_sub` on an unsigned type: `None` instead of going below zero. */
  function CheckedSub(a: int, b: int): (r: Option<int>)
    requires 0 <= a && 0 <= b
    ensures r.Some? <==> b <= a
    ensures r.Some? ==> r.value == a - b && r.value <= a
  {
    if b <= a then Some(a - b) else None
  }

  /** `checked_mul` on an unsigned type whose largest value is `max`. */
  function CheckedMul(a: int, b: int, max: int): (r: Option<int>)
    requires 0 <= a && 0 <= b
    ensures r.Some? <==> a * b <= max
    ensures r.Some? ==> r.value == a * b && 0 <= r.value
  {
    if a * b <= max then Some(a * b) else None
  }

  /** `saturating_add` on an unsigned type: clamps at `max` instead of overflowing. */
  function SaturatingAdd(a: int, b: int, max: int): (r: int)
    requires 0 <= a <= max && 0 <= b
    ensures a <= r <= max
    ensures r == max || r == a + b
  {
    if a + b <= max then a + b else max
  }

  /** `saturating_sub` on an unsigned type: clamps at zero instead of going negative. */
  function SaturatingSub(a: int, b: int): (r: int)
    requires 0 <= a && 0 <= b
    ensures 0 <= r <= a
    ensures r == 0 || r == a - b
  {
    if b <= a then a - b else 0
  }

  /** The `as u16` cast of a non-negative value: keeps its low 16 bits. */
  function WrapU16(x: int): (r: U16)
    requires 0 <= x
    ensures x <= U16_MAX ==> r == x
    ensures r == x % 0x1_0000
  {
    x % 0x1_0000
  }

  /** The `as u64` cast of a u128: keeps its low 64 bits. */
  function WrapU64(x: int): (r: U64)
    requires 0 <= x
    ensures x <= U64_MAX ==> r == x
    ensures r == x % 0x1_0000_0000_0000_0000
  {
    x % 0x1_0000_0000_0000_0000
  }

  /** An `i64` addition that the runtime's overflow checks would reject. */
  predicate I64Overflows(x: int)
  {
    !(I64_MIN <= x <= I64_MAX)
  }
}
