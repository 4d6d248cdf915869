/** Fixed-width integer types of the kernel code, on Dafny's unbounded integers. */
module Uint {
  /** 2^32: every u32 operation of the source is taken modulo this value. */
  const Two32: int := 0x1_0000_0000

  /** `u32` / `unsigned int`. */
  type u32 = x: int | 0 <= x < 0x1_0000_0000

  /** `s32`, the type of the RTT sample the host passes in. */
  type s32 = x: int | -0x8000_0000 <= x < 0x8000_0000

  function Min(a: int, b: int): int { if a <= b then a else b }

  function Max(a: int, b: int): int { if a >= b then a else b }
}
