/** Fixed-width machine integers used by the renderer, as ranges of `int`. */
module Numeric {

  const U16_LIMIT: int := 0x1_0000
  const U32_LIMIT: int := 0x1_0000_0000
  const I32_LIMIT: int := 0x8000_0000

  /** Rust's `u16`. */
  type u16 = x: int | 0 <= x < U16_LIMIT

  /** Rust's `u32`. */
  type u32 = x: int | 0 <= x < U32_LIMIT

  /** Rust's `i32`. */
  type i32 = x: int | -I32_LIMIT <= x < I32_LIMIT

  /** Rust's `x as i32` for `x: u32`: the same 32 bits read as two's complement. */
  function AsI32(x: u32): (r: i32)
    ensures (x - r) % U32_LIMIT == 0
    ensures r == x <==> x < I32_LIMIT
  {
    if x < I32_LIMIT then x else x - U32_LIMIT
  }

  /** Rust's `x as u32` for `x: u16`: zero extension. */
  function WidenU16(x: u16): (r: u32)
    ensures r as int == x as int
  {
    x
  }
}
