/** Value types shared by every module: failure-compatible results, bounded
    integers and the opaque identifiers the protocol compares for equality. */
module Basics {

  datatype Option<+T> = None | Some(value: T)

  datatype Result<+T, +E> = Ok(value: T) | Err(error: E)

  type byte = b: int | 0 <= b < 0x100

  type u32 = n: int | 0 <= n < 0x1_0000_0000

  type u64 = n: int | 0 <= n < 0x1_0000_0000_0000_0000

  /** A UUID, identified with the number its sixteen bytes spell, least significant byte first. */
  type Uuid = n: int | 0 <= n < 0x1_0000_0000_0000_0000_0000_0000_0000_0000

  /** Request ids are strings in the source, made by UUID generation and only ever compared for equality. */
  type RequestId = nat

  function Min(a: int, b: int): int {
    if a <= b then a else b
  }

  function Max(a: int, b: int): int {
    if a >= b then a else b
  }

  /** Rust's `as u32` on an unsigned value. */
  function AsU32(n: nat): u32 {
    n % 0x1_0000_0000
  }
}
