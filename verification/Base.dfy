/** Machine integers and the few shared types. */
module Base {

  datatype Option<+T> = None | Some(value: T)

  const U64_MAX: int := 0xFFFF_FFFF_FFFF_FFFF
  const I128_MAX: int := 0x7FFF_FFFF_FFFF_FFFF_FFFF_FFFF_FFFF_FFFF

  /** Ledger timestamps and durations. */
  type U64 = x: int | 0 <= x <= U64_MAX

  /** Token amounts as they arrive from a caller. */
  type I128 = x: int | -I128_MAX - 1 <= x <= I128_MAX

  type Address = string

  /** `u64::saturating_add` */
  function SatAdd(a: U64, b: U64): U64 {
    if a + b > U64_MAX then U64_MAX else a + b
  }

  /** `u64::saturating_sub` */
  function SatSub(a: U64, b: U64): U64 {
    if a < b then 0 else a - b
  }

  function Max(a: int, b: int): int {
    if a > b then a else b
  }

  function Min(a: int, b: int): int {
    if a < b then a else b
  }
}
