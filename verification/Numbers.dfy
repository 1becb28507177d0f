/** Machine integers as subset types of the mathematical integers. */
module Numbers {
  const TWO_64: int := 0x1_0000_0000_0000_0000
  const TWO_128: int := TWO_64 * TWO_64
  const U64_MAX: int := TWO_64 - 1
  const U32_MAX: int := 0xFFFF_FFFF
  const I64_MAX: int := 0x7FFF_FFFF_FFFF_FFFF
  const I64_MIN: int := -0x8000_0000_0000_0000

  type u8 = x: int | 0 <= x < 256
  type u32 = x: int | 0 <= x <= U32_MAX
  type u64 = x: int | 0 <= x <= U64_MAX
  type i64 = x: int | I64_MIN <= x <= I64_MAX

  /** Rust's `as u64` on a non-negative wider integer: the low 64 bits. */
  function AsU64(x: nat): u64 {
    x % TWO_64
  }

  /** Integer division as JavaScript's bigint does it: towards zero. */
  function TruncDiv(a: int, b: int): int
    requires b > 0
  {
    if a >= 0 then a / b else -((-a) / b)
  }

  /** What is left over has the sign of the dividend and is smaller than the divisor. */
  lemma TruncDivTowardsZero(a: int, b: int)
    requires b > 0
    ensures var left := a - TruncDiv(a, b) * b;
            -b < left < b && (a >= 0 ==> left >= 0) && (a <= 0 ==> left <= 0)
  {
    FloorBounds(a, b);
    FloorBounds(-a, b);
    assert -((-a) / b) * b == -(((-a) / b) * b);
  }

  /** The two inequalities that determine a floor quotient. */
  lemma FloorBounds(x: int, t: int)
    requires t > 0
    ensures (x / t) * t <= x < (x / t) * t + t
  {
  }

  /** A floor quotient is the largest integer whose product does not exceed the dividend. */
  lemma FloorIsLargest(x: int, t: int, k: int)
    requires t > 0
    ensures k <= x / t <==> k * t <= x
  {
    FloorBounds(x, t);
    if k <= x / t {
      MulMonotone(k, x / t, t);
    } else {
      MulMonotone(x / t + 1, k, t);
      assert (x / t + 1) * t == (x / t) * t + t;
    }
  }

  lemma MulMonotone(a: int, b: int, t: int)
    requires a <= b
    requires t >= 0
    ensures a * t <= b * t
  {
    assert b * t - a * t == (b - a) * t;
  }

  lemma DivMonotone(x: int, y: int, t: int)
    requires x <= y
    requires t > 0
    ensures x / t <= y / t
  {
    FloorBounds(x, t);
    FloorIsLargest(y, t, x / t);
  }
}
