/** Fixed-width machine integers and the optional value used across the model.
    Rust's integer widths are subset types of `int`; the model targets a
    64-bit host, so `usize` has the range of `u64`. */
module Prims {

  const U8_LIMIT: int := 0x100
  const U16_LIMIT: int := 0x1_0000
  const U32_LIMIT: int := 0x1_0000_0000
  const U64_LIMIT: int := 0x1_0000_0000_0000_0000

  type u8 = x: int | 0 <= x < U8_LIMIT
  type u16 = x: int | 0 <= x < U16_LIMIT
  type u32 = x: int | 0 <= x < U32_LIMIT
  type u64 = x: int | 0 <= x < U64_LIMIT
  type usize = u64
  type i32 = x: int | -0x8000_0000 <= x < 0x8000_0000

  /** Rust's `Option<T>`. */
  datatype Option<+T> = None | Some(value: T)
}
