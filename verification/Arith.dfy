/** Machine integers, and the rounding divisions every quote is built from. */
module Arith {

  const U64_MAX: int := 0xFFFF_FFFF_FFFF_FFFF
  const U128_MAX: int := 0xFFFF_FFFF_FFFF_FFFF_FFFF_FFFF_FFFF_FFFF

  type u8 = x: int | 0 <= x < 0x100
  type u16 = x: int | 0 <= x < 0x1_0000
  type u64 = x: int | 0 <= x <= 0xFFFF_FFFF_FFFF_FFFF
  type u128 = x: int | 0 <= x <= 0xFFFF_FFFF_FFFF_FFFF_FFFF_FFFF_FFFF_FFFF

  function Min(a: int, b: int): int {
    if a <= b then a else b
  }

  function Max(a: int, b: int): int {
    if a >= b then a else b
  }

  /** Rounding-up division. */
  function DivCeil(n: nat, d: nat): (q: nat)
    requires 0 < d
    ensures n <= q * d < n + d
  {
    FloorBounds(n, d);
    if n % d == 0 then n / d else n / d + 1
  }

  lemma FloorBounds(n: nat, d: nat)
    requires 0 < d
    ensures 0 <= n / d
    ensures n / d * d <= n < (n / d + 1) * d
    ensures n % d == 0 ==> n / d * d == n
    ensures n % d != 0 ==> n / d * d < n
  {
    assert n == d * (n / d) + n % d;
  }

  /** `q` is the quotient of `n` by `d`, rounded down. */
  ghost predicate IsQuotient(q: int, n: int, d: int) {
    q * d <= n < (q + 1) * d
  }

  lemma QuotientIsUnique(q: int, n: nat, d: nat)
    requires 0 < d
    ensures IsQuotient(q, n, d) <==> q == n / d
  {
    FloorBounds(n, d);
    if IsQuotient(q, n, d) {
      FloorGalois(n, d, q);
      FloorGalois(n, d, q + 1);
    }
  }

  lemma MulMono(a: int, b: int, k: int)
    requires a <= b && 0 <= k
    ensures a * k <= b * k
  {
  }

  /** `k` is below the floor exactly when `k * d` is below the numerator. */
  lemma FloorGalois(n: nat, d: nat, k: int)
    requires 0 < d
    ensures k <= n / d <==> k * d <= n
  {
    FloorBounds(n, d);
    if k <= n / d {
      MulMono(k, n / d, d);
    } else {
      MulMono(n / d + 1, k, d);
    }
  }

  /** `k` is above the ceiling exactly when `k * d` is above the numerator. */
  lemma CeilGalois(n: nat, d: nat, k: int)
    requires 0 < d
    ensures DivCeil(n, d) <= k <==> n <= k * d
  {
    var q := DivCeil(n, d);
    if q <= k {
      MulMono(q, k, d);
    } else {
      MulMono(k, q - 1, d);
    }
  }

  /** A u64 product always fits u128, so plain, checked and saturating products agree on it. */
  function Mul128(a: u64, b: u64): (r: u128)
    ensures r == a * b
    ensures r <= U64_MAX * U64_MAX
  {
    MulMono(a, U64_MAX, b);
    MulMono(b, U64_MAX, U64_MAX);
    a * b
  }
}
