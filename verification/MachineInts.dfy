/** Fixed-width integers as the Rust sources use them, and powers of two. */
module MachineInts {

  const U16_MAX: int := 0xFFFF
  const U32_MAX: int := 0xFFFF_FFFF
  const U64_MAX: int := 0xFFFF_FFFF_FFFF_FFFF
  const I64_MAX: int := 0x7FFF_FFFF_FFFF_FFFF
  const I64_MIN: int := -0x8000_0000_0000_0000
  const TWO_TO_THE_32: int := 0x1_0000_0000
  const TWO_TO_THE_64: int := 0x1_0000_0000_0000_0000

  type U16 = x: int | 0 <= x <= U16_MAX
  type U32 = x: int | 0 <= x <= U32_MAX
  type U64 = x: int | 0 <= x <= U64_MAX
  type I64 = x: int | I64_MIN <= x <= I64_MAX

  datatype Option<+T> = None | Some(value: T)

  function Min(a: int, b: int): int {
    if a <= b then a else b
  }

  function Max(a: int, b: int): int {
    if a <= b then b else a
  }

  function Clamp(x: int, lo: int, hi: int): int {
    Max(lo, Min(x, hi))
  }

  /** `i64::checked_add`: no result when the sum leaves the type. */
  function CheckedAdd(a: I64, b: I64): Option<I64> {
    if I64_MIN <= a + b <= I64_MAX then Some(a + b) else None
  }

  /** `i64::saturating_sub`. */
  function SaturatingSub(a: I64, b: I64): I64 {
    Clamp(a - b, I64_MIN, I64_MAX)
  }

  function Pow2(n: nat): (p: nat)
    ensures p >= 1
  {
    if n == 0 then 1 else 2 * Pow2(n - 1)
  }

  lemma {:induction false} Pow2Monotone(m: nat, n: nat)
    requires m <= n
    ensures Pow2(m) <= Pow2(n)
    decreases n
  {
    if m < n {
      Pow2Monotone(m, n - 1);
    }
  }

  /** The powers the policy bounds are computed with. */
  lemma Pow2Values()
    ensures Pow2(16) == 65536 && Pow2(17) == 131072 && Pow2(18) == 262144
    ensures Pow2(31) == 0x8000_0000
  {
    assert Pow2(4) == 16;
    assert Pow2(8) == 256;
    assert Pow2(12) == 4096;
    assert Pow2(16) == 65536;
    assert Pow2(18) == 262144;
    assert Pow2(22) == 4194304;
    assert Pow2(26) == 67108864;
    assert Pow2(30) == 1073741824;
  }

  lemma SmallModulo(x: nat, m: nat)
    requires x < m
    ensures x % m == x
  {
  }

  lemma MulMonotone(x: nat, y: nat, a: nat, b: nat)
    requires x <= y && a <= b
    ensures x * a <= y * b
  {
    calc {
      y * b - x * a;
      y * (b - a) + (y - x) * a;
    }
  }

  /** Scaling by a power of two keeps order in the factor and in the exponent. */
  lemma ScaleMonotone(x: nat, y: nat, m: nat, n: nat)
    requires x <= y && m <= n
    ensures x * Pow2(m) <= y * Pow2(n)
  {
    Pow2Monotone(m, n);
    MulMonotone(x, y, Pow2(m), Pow2(n));
  }
}
