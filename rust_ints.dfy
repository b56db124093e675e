/** Rust's fixed-width unsigned integer types, as ranges of mathematical integers. */
module RustInts {

  const U8_MAX: int := 0xFF
  const U32_MAX: int := 0xFFFF_FFFF
  const U64_MAX: int := 0xFFFF_FFFF_FFFF_FFFF

  /** `u8` */
  type U8 = x: int | 0 <= x <= U8_MAX

  /** `u32` */
  type U32 = x: int | 0 <= x <= U32_MAX

  /** `u64` */
  type U64 = x: int | 0 <= x <= U64_MAX
}
