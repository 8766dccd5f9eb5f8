/** Types and bounded arithmetic shared by the models of the agent, the cipher and the relay. */
module Common {

  datatype Option<+T> = None | Some(value: T)

  const U8_MAX: int := 0xFF
  const U32_MAX: int := 0xFFFF_FFFF
  const U64_MAX: int := 0xFFFF_FFFF_FFFF_FFFF
  const U128_MAX: int := 0xFFFF_FFFF_FFFF_FFFF_FFFF_FFFF_FFFF_FFFF
  const USIZE_MAX: int := U64_MAX

  type u8 = n: int | 0 <= n <= U8_MAX
  type u32 = n: int | 0 <= n <= U32_MAX
  type u64 = n: int | 0 <= n <= U64_MAX

  /** Milliseconds, for both instants and durations. */
  type Millis = real

  function Min(a: int, b: int): int { if a <= b then a else b }

  function Max(a: int, b: int): int { if a >= b then a else b }

  function MinR(a: real, b: real): real { if a <= b then a else b }

  function MaxR(a: real, b: real): real { if a >= b then a else b }

  /** `u64::saturating_add`. */
  function SatAdd64(a: u64, b: u64): u64 { Min(a + b, U64_MAX) }

  /** `u32::saturating_add`. */
  function SatAdd32(a: u32, b: u32): u32 { Min(a + b, U32_MAX) }

  /** `f64::clamp`, on reals. */
  function Clamp(x: real, lo: real, hi: real): real
    requires lo <= hi
  {
    if x < lo then lo else if x > hi then hi else x
  }

  /** `Instant::duration_since`, which is zero when the clock would have run backwards. */
  function Elapsed(now: Millis, since: Millis): Millis { MaxR(now - since, 0.0) }
}
