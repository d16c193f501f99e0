/** The two roundings all pools share: a proportional fee rounded up, and a constant-product
    output rounded down. Each comes with the least input that reaches a given result. */
module Curve {
  import opened Arith

  /** A fee of `num / den`, rounded up. */
  function CeilFee(amount: nat, num: nat, den: nat): nat
    requires 0 < den
  {
    DivCeil(amount * num, den)
  }

  /** What is left of `amount` after a fee of `num / den`, rounded up. */
  function NetOfFee(amount: nat, num: nat, den: nat): (net: nat)
    requires num <= den && 0 < den
    ensures net <= amount
  {
    CeilFeeIsLipschitz(amount, amount, num, den);
    amount - CeilFee(amount, num, den)
  }

  /** A proportional fee of at most 100%, rounded up, never exceeds the amount and grows no
      faster than it. */
  lemma CeilFeeIsLipschitz(a: nat, b: nat, num: nat, den: nat)
    requires 0 < den && num <= den && a <= b
    ensures DivCeil(a * num, den) <= a
    ensures DivCeil(a * num, den) <= DivCeil(b * num, den) <= DivCeil(a * num, den) + (b - a)
  {
    MulMono(num, den, a);
    CeilGalois(a * num, den, a);
    MulMono(a, b, num);
    CeilGalois(a * num, den, DivCeil(b * num, den));
    CeilStep(a * num, b * num, b - a, den) by {
      MulMono(num, den, b - a);
      assert b * num == a * num + (b - a) * num;
    }
  }

  lemma CeilStep(m: nat, n: nat, k: nat, den: nat)
    requires 0 < den && n <= m + k * den
    ensures DivCeil(n, den) <= DivCeil(m, den) + k
  {
    CeilGalois(n, den, DivCeil(m, den) + k);
    assert (DivCeil(m, den) + k) * den == DivCeil(m, den) * den + k * den;
  }

  lemma NetOfFeeIsMonotone(a: nat, b: nat, num: nat, den: nat)
    requires num <= den && 0 < den && a <= b
    ensures NetOfFee(a, num, den) <= NetOfFee(b, num, den)
  {
    CeilFeeIsLipschitz(a, b, num, den);
  }

  /** The net is the rounded-down share that the fee leaves. */
  lemma NetReaches(amount: nat, num: nat, den: nat, k: int)
    requires num <= den && 0 < den
    ensures k <= NetOfFee(amount, num, den) <==> k * den <= amount * (den - num)
  {
    CeilGalois(amount * num, den, amount - k);
    assert (amount - k) * den == amount * den - k * den;
    assert amount * (den - num) == amount * den - amount * num;
  }

  /** The least gross amount whose net reaches `net`. */
  function GrossOfNet(net: nat, num: nat, den: nat): nat
    requires num < den
  {
    DivCeil(net * den, den - num)
  }

  lemma GrossOfNetIsLeast(net: nat, num: nat, den: nat, amount: nat)
    requires num < den
    ensures net <= NetOfFee(amount, num, den) <==> GrossOfNet(net, num, den) <= amount
  {
    NetReaches(amount, num, den, net);
    CeilGalois(net * den, den - num, amount);
  }

  /** Output of a constant-product pool with reserves `x` in and `y` out for an input `dx`. */
  function CurveOut(x: nat, y: nat, dx: nat): nat
    requires 0 < x
  {
    FloorBounds(dx * y, x + dx);
    dx * y / (x + dx)
  }

  lemma CurveOutExactly(x: nat, y: nat, dx: nat, out: int)
    requires 0 < x
    ensures IsQuotient(out, dx * y, x + dx) <==> out == CurveOut(x, y, dx)
  {
    MulMono(0, y, dx);
    QuotientIsUnique(out, dx * y, x + dx);
  }

  lemma CurveOutReaches(x: nat, y: nat, dx: nat, t: int)
    requires 0 < x
    ensures t <= CurveOut(x, y, dx) <==> t * x <= dx * (y - t)
  {
    FloorGalois(dx * y, x + dx, t);
    assert t * (x + dx) == t * x + t * dx;
    assert dx * (y - t) == dx * y - dx * t;
  }

  lemma CurveOutBelowReserve(x: nat, y: nat, dx: nat)
    requires 0 < x
    ensures CurveOut(x, y, dx) <= y
    ensures 0 < y ==> CurveOut(x, y, dx) < y
  {
    CurveOutReaches(x, y, dx, y);
    CurveOutReaches(x, y, dx, y + 1);
    if 0 < y {
      MulMono(1, x, y);
    }
  }

  lemma CurveOutIsMonotone(x: nat, y: nat, a: nat, b: nat)
    requires 0 < x && a <= b
    ensures CurveOut(x, y, a) <= CurveOut(x, y, b)
  {
    var t := CurveOut(x, y, a);
    CurveOutBelowReserve(x, y, a);
    CurveOutReaches(x, y, a, t);
    MulMono(a, b, y - t);
    CurveOutReaches(x, y, b, t);
  }

  /** The least input whose output reaches `t`. */
  function CurveIn(x: nat, y: nat, t: nat): nat
    requires t < y
  {
    DivCeil(t * x, y - t)
  }

  lemma CurveInIsLeast(x: nat, y: nat, t: nat, dx: nat)
    requires 0 < x && t < y
    ensures t <= CurveOut(x, y, dx) <==> CurveIn(x, y, t) <= dx
  {
    CurveOutReaches(x, y, dx, t);
    CeilGalois(t * x, y - t, dx);
  }

  /** The product of the reserves never falls when any output the input reaches is paid. */
  lemma ProductIsKept(x: nat, y: nat, dx: nat, out: nat)
    requires 0 < x && out <= CurveOut(x, y, dx)
    ensures out <= y && x * y <= (x + dx) * (y - out)
  {
    CurveOutBelowReserve(x, y, dx);
    CurveOutReaches(x, y, dx, out);
    assert (x + dx) * (y - out) == x * y - x * out + dx * (y - out);
  }

  /** The floor of the exact price of `t` brackets it: inputs up to the floor buy at most `t`, and
      inputs above it buy at least `t`. */
  lemma FloorPriceBrackets(x: nat, y: nat, t: nat, i: nat)
    requires 0 < x && t < y
    ensures i <= t * x / (y - t) ==> CurveOut(x, y, i) <= t
    ensures t * x / (y - t) < i ==> t <= CurveOut(x, y, i)
  {
    FloorGalois(t * x, y - t, i);
    CurveOutReaches(x, y, i, t);
    CurveOutReaches(x, y, i, t + 1);
    assert (t + 1) * x == t * x + x;
    assert i * (y - (t + 1)) == i * (y - t) - i;
  }

  /** An output that an input reaches is worth, at the price the swap leaves, no more than that
      input. `y'` is an output reserve of at least what the swap leaves. */
  lemma OutputWorth(x: nat, y: nat, dx: nat, s: nat, credit: nat, y': nat)
    requires 0 < x && 0 < y && s <= CurveOut(x, y, dx) && dx <= credit && y - s <= y'
    ensures 0 < y' && s * x <= credit * y'
  {
    CurveOutBelowReserve(x, y, dx);
    CurveOutReaches(x, y, dx, s);
    MulMono(dx, credit, y - s);
    MulMono(y - s, y', credit);
  }

  /** So trading any of it back returns no more than was credited. */
  lemma WorthBoundsReturn(x: nat, credit: nat, x': nat, y': nat, s: nat, d: nat)
    requires 0 < y' && s * x <= credit * y' && d <= s && x' <= x + credit
    ensures CurveOut(y', x', d) <= credit
  {
    MulMono(d, s, x);
    MulMono(x' - (credit + 1), x, d);
    assert d * (x' - (credit + 1)) <= credit * y' < (credit + 1) * y';
    CurveOutReaches(y', x', d, credit + 1);
  }
}
