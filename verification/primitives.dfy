/**
 * Fixed-width integers, public keys, results and the checked/saturating
 * arithmetic of Rust's primitive integer types, as the on-chain programs use
 * them. Every width is an `int` subset so that overflow is written out
 * instead of being inherited from a machine type.
 */
module Primitives {

  const U8_LIMIT: int := 0x100
  const U16_LIMIT: int := 0x1_0000
  const U32_LIMIT: int := 0x1_0000_0000
  const U64_LIMIT: int := 0x1_0000_0000_0000_0000
  const U128_LIMIT: int := 0x1_0000_0000_0000_0000_0000_0000_0000_0000
  const I64_MIN: int := -0x8000_0000_0000_0000
  const I64_MAX: int := 0x7fff_ffff_ffff_ffff
  const U32_MAX: int := U32_LIMIT - 1
  const U64_MAX: int := U64_LIMIT - 1

  newtype u8 = x: int | 0 <= x < 0x100
  newtype u16 = x: int | 0 <= x < 0x1_0000
  newtype u32 = x: int | 0 <= x < 0x1_0000_0000
  newtype u64 = x: int | 0 <= x < 0x1_0000_0000_0000_0000
  newtype u128 = x: int | 0 <= x < 0x1_0000_0000_0000_0000_0000_0000_0000_0000
  newtype i64 = x: int | -0x8000_0000_0000_0000 <= x < 0x8000_0000_0000_0000

  /** A 32-byte Solana public key (account address). */
  type Pubkey = k: seq<u8> | |k| == 32 witness seq(32, _ => 0 as u8)

  datatype Option<T> = None | Some(value: T)

  /** The `Result<T>` every instruction handler returns. */
  datatype Result<T, E> = Ok(value: T) | Err(error: E)

  /**
   * Failures raised by the Solana runtime or the Anchor framework rather than
   * by a program's own error enum: `ProgramError::ArithmeticOverflow`, an
   * `init` account that already exists, a `seeds` account that does not, a
   * PDA seed longer than the runtime allows, and a Rust panic (an
   * out-of-range slice, an overflowing unchecked operation).
   */
  datatype HostError =
    | ArithmeticOverflow
    | AccountAlreadyInUse
    | AccountNotInitialized
    | MaxSeedLengthExceeded
    | Panic

  /** The runtime's limit on the length of one PDA seed. */
  const MAX_SEED_LEN: nat := 32

  /** `a.checked_add(b)` on `u64`. */
  function CheckedAddU64(a: u64, b: u64): (r: Option<u64>)
    ensures r.Some? <==> a as int + b as int < U64_LIMIT
    ensures r.Some? ==> r.value as int == a as int + b as int
  {
    if a as int + b as int < U64_LIMIT then Some((a as int + b as int) as u64) else None
  }

  /** `a.checked_mul(b)` on `u64`. */
  function CheckedMulU64(a: u64, b: u64): (r: Option<u64>)
    ensures r.Some? <==> a as int * b as int < U64_LIMIT
    ensures r.Some? ==> r.value as int == a as int * b as int
  {
    if a as int * b as int < U64_LIMIT then Some((a as int * b as int) as u64) else None
  }

  /** `a.checked_sub(b)` on `i64`. */
  function CheckedSubI64(a: i64, b: i64): (r: Option<i64>)
    ensures r.Some? <==> I64_MIN <= a as int - b as int <= I64_MAX
    ensures r.Some? ==> r.value as int == a as int - b as int
  {
    var d := a as int - b as int;
    if I64_MIN <= d <= I64_MAX then Some(d as i64) else None
  }

  /** `a.checked_mul(b)` on `i64`. */
  function CheckedMulI64(a: i64, b: i64): (r: Option<i64>)
    ensures r.Some? <==> I64_MIN <= a as int * b as int <= I64_MAX
    ensures r.Some? ==> r.value as int == a as int * b as int
  {
    var p := a as int * b as int;
    if I64_MIN <= p <= I64_MAX then Some(p as i64) else None
  }

  /**
   * Rust's `/` on signed integers by a positive divisor: the quotient
   * truncated toward zero, so the remainder `a - q * b` has the sign of `a`
   * and is smaller than `b` in magnitude.
   */
  function TruncDiv(a: int, b: int): (q: int)
    requires b > 0
    ensures a >= 0 ==> 0 <= a - q * b < b
    ensures a < 0 ==> -b < a - q * b <= 0
  {
    if a >= 0 then a / b else -((-a) / b)
  }

  /** `x as u32` on an `i64`: keeps the low 32 bits of the two's-complement value. */
  function LowU32(x: i64): (r: u32)
    ensures 0 <= x as int < U32_LIMIT ==> r as int == x as int
    ensures (r as int - x as int) % U32_LIMIT == 0
  {
    (x as int % U32_LIMIT) as u32
  }

  /** `x as u64` on an `i64`: the two's-complement bit pattern read as unsigned. */
  function AsU64(x: i64): (r: u64)
    ensures x >= 0 ==> r as int == x as int
    ensures x < 0 ==> r as int == x as int + U64_LIMIT && r as int > I64_MAX
  {
    if x >= 0 then x as int as u64 else (x as int + U64_LIMIT) as u64
  }

  /** `a.saturating_add(b)` on `u32`. */
  function SaturatingAddU32(a: u32, b: u32): (r: u32)
    ensures r as int == if a as int + b as int > U32_MAX then U32_MAX else a as int + b as int
  {
    if a as int + b as int > U32_MAX then U32_MAX as u32 else (a as int + b as int) as u32
  }

  /** `base.pow(e)` on unbounded integers. */
  function Pow(base: nat, e: nat): (r: nat)
    ensures base > 0 ==> r > 0
  {
    if e == 0 then 1 else base * Pow(base, e - 1)
  }
}
