/** Machine integer ranges and small numeric helpers shared by the model. */
module Types {

  const U32_LIMIT: int := 0x1_0000_0000
  const U64_LIMIT: int := 0x1_0000_0000_0000_0000

  /** Rust `u32`: ticks and counters. */
  type u32 = x: int | 0 <= x < U32_LIMIT

  /** Rust `u64`: player identifiers and SteamID64 values. */
  type u64 = x: int | 0 <= x < U64_LIMIT

  /** An (x, y, z) position or a (pitch, yaw, roll) angle triple. */
  type Triple = (real, real, real)

  /** `f32::abs` on a non-NaN value. */
  function Abs(x: real): (r: real)
    ensures r >= 0.0
    ensures r == x || r == -x
  {
    if x < 0.0 then -x else x
  }

  function MaxReal(a: real, b: real): (r: real)
    ensures r >= a && r >= b
    ensures r == a || r == b
  {
    if a >= b then a else b
  }

  /** The `u32` subtraction `tick - earlier`, wrapping as a release build does. */
  function TickGap(tick: u32, earlier: u32): (gap: u32)
    ensures earlier <= tick ==> gap == tick - earlier
    ensures tick < earlier ==> gap == tick - earlier + U32_LIMIT
  {
    (tick - earlier) % U32_LIMIT
  }
}
