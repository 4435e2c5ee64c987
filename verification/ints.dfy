/** The fixed-width unsigned integers of Rust, and the few operations on them
    that the batch clock uses: checked addition and subtraction, and the
    truncating `as u32` cast. */
module Ints {
  import opened Wrappers

  const U64_MAX: int := 0xffff_ffff_ffff_ffff
  const U32_MAX: int := 0xffff_ffff
  /** 2^32: a `u64` cast `as u32` keeps its value modulo this. */
  const U32_MODULUS: int := 0x1_0000_0000

  type u64 = x: int | 0 <= x <= U64_MAX
  type u32 = x: int | 0 <= x <= U32_MAX

  /** `u64::checked_add`: `None` exactly when the sum leaves the `u64` range. */
  function CheckedAdd(x: u64, y: u64): (r: Option<u64>)
    ensures r.Some? <==> x + y <= U64_MAX
    ensures r.Some? ==> r.value - y == x
  {
    if x + y <= U64_MAX then Some(x + y) else None
  }

  /** `u64::checked_sub`: `None` exactly when the difference would be negative. */
  function CheckedSub(x: u64, y: u64): (r: Option<u64>)
    ensures r.Some? <==> y <= x
    ensures r.Some? ==> r.value + y == x
  {
    if y <= x then Some(x - y) else None
  }

  /** `x as u32` for a `u64` x: keeps the low 32 bits. */
  function TruncateToU32(x: u64): (r: u32)
    ensures x <= U32_MAX ==> r == x
    ensures (x - r) % U32_MODULUS == 0
  {
    x % U32_MODULUS
  }
}
