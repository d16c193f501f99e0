/** Pump fees in basis points, each rounded up on its own, and the correction that turns a budget
    into a net input (crates/sdk/src/quote.rs:58-75, 694-701, 747-754;
    crates/sdk/src/pumpfun_v3.rs:513-521). */
module PumpFees {
  import opened Arith

  const BPS: nat := 10_000

  /** The fee computed in two parts, so that only a huge remainder or result overflows u128. */
  function ComputeFeeBps(amount: u128, bps: u128): (fee: u128)
  {
    FloorBounds(amount, BPS);
    MulMono(0, amount / BPS, bps);
    MulMono(0, amount % BPS, bps);
    var whole: nat := amount / BPS * bps;
    var rem: nat := amount % BPS * bps;
    if whole > U128_MAX || rem > U128_MAX then U128_MAX
    else Min(whole + DivCeil(rem, BPS), U128_MAX)
  }

  /** The split fee is the plain rounded-up fee, capped at the u128 maximum, unless the remainder's
      own product overflows. */
  lemma SplitFeeIsCeil(amount: u128, bps: u128)
    ensures ComputeFeeBps(amount, bps)
            == if amount % BPS * bps > U128_MAX then U128_MAX else Min(Ceil(amount, bps), U128_MAX)
  {
    var q, r := amount / BPS, amount % BPS;
    FloorBounds(amount, BPS);
    MulMono(0, q, bps);
    MulMono(0, r, bps);
    var c := DivCeil(r * bps, BPS);
    assert amount * bps == q * bps * BPS + r * bps;
    CeilGalois(amount * bps, BPS, q * bps + c);
    CeilGalois(amount * bps, BPS, q * bps + c - 1);
  }

  /** A fee of `bps` rounded up. */
  function Ceil(amount: nat, bps: nat): nat {
    DivCeil(amount * bps, BPS)
  }

  lemma CeilGrows(a: nat, b: nat, bps: nat)
    requires a <= b
    ensures Ceil(a, bps) <= Ceil(b, bps)
  {
    MulMono(a, b, bps);
    CeilGalois(a * bps, BPS, Ceil(b, bps));
  }

  /** On u64 amounts and rates nothing overflows, so the split fee is the plain one. */
  lemma SplitFeeOfU64(amount: u64, bps: u64)
    ensures ComputeFeeBps(amount, bps) == Ceil(amount, bps)
  {
    var product := Mul128(amount, bps);
    FloorBounds(amount, BPS);
    MulMono(amount % BPS, amount, bps);
    CeilGalois(product, BPS, product);
    SplitFeeIsCeil(amount, bps);
  }

  /** An input together with its three fees; the two-fee schedules leave the last rate zero. */
  function WithFees(x: nat, a: nat, b: nat, c: nat): nat {
    x + Ceil(x, a) + Ceil(x, b) + Ceil(x, c)
  }

  /** Each further unit of input costs at least one unit. */
  lemma WithFeesGrows(x: nat, y: nat, a: nat, b: nat, c: nat)
    requires x <= y
    ensures WithFees(x, a, b, c) + (y - x) <= WithFees(y, a, b, c)
  {
    CeilGrows(x, y, a);
    CeilGrows(x, y, b);
    CeilGrows(x, y, c);
  }

  /** The first guess: the budget with all fees inverted together. */
  function Guess(budget: nat, a: nat, b: nat, c: nat): nat {
    FloorBounds(budget * BPS, BPS + a + b + c);
    budget * BPS / (BPS + a + b + c)
  }

  /** The guess less what it overspends. */
  function Corrected(budget: nat, a: nat, b: nat, c: nat): nat {
    var guess := Guess(budget, a, b, c);
    Max(0, guess - Max(0, WithFees(guess, a, b, c) - budget))
  }

  ghost predicate Affordable(x: nat, budget: nat, a: nat, b: nat, c: nat) {
    WithFees(x, a, b, c) <= budget
  }

  /** Rounding adds less than one unit for each fee charged. */
  lemma RoundingBounds(x: nat, a: nat, b: nat, c: nat)
    ensures x * (BPS + a + b + c) <= WithFees(x, a, b, c) * BPS <= x * (BPS + a + b + c) + 3 * (BPS - 1)
    ensures c == 0 ==> WithFees(x, a, b, c) * BPS <= x * (BPS + a + b + c) + 2 * (BPS - 1)
  {
    assert x * (BPS + a + b + c) == x * BPS + x * a + x * b + x * c;
  }

  /** The guess is an upper bound, and overspends by less than one unit per charged fee. */
  lemma GuessBounds(budget: nat, a: nat, b: nat, c: nat)
    ensures forall x: nat :: Affordable(x, budget, a, b, c) ==> x <= Guess(budget, a, b, c)
    ensures WithFees(Guess(budget, a, b, c), a, b, c) <= budget + 2
    ensures c == 0 ==> WithFees(Guess(budget, a, b, c), a, b, c) <= budget + 1
  {
    var d := BPS + a + b + c;
    FloorGalois(budget * BPS, d, Guess(budget, a, b, c));
    RoundingBounds(Guess(budget, a, b, c), a, b, c);
    forall x: nat | Affordable(x, budget, a, b, c)
      ensures x <= Guess(budget, a, b, c)
    {
      RoundingBounds(x, a, b, c);
      FloorGalois(budget * BPS, d, x);
    }
  }

  lemma GuessWithinBudget(budget: nat, a: nat, b: nat, c: nat)
    ensures Guess(budget, a, b, c) <= budget
  {
    FloorGalois(budget * BPS, BPS + a + b + c, budget + 1);
    MulMono(BPS, BPS + a + b + c, budget + 1);
  }

  /** The corrected net never overspends, and is the largest affordable input whenever the guess
      overspends by at most one unit; otherwise at most one unit more was affordable. */
  lemma CorrectedIsNearlyLargest(budget: nat, a: nat, b: nat, c: nat)
    ensures var net := Corrected(budget, a, b, c);
            && Affordable(net, budget, a, b, c)
            && forall x: nat :: Affordable(x, budget, a, b, c) ==>
                 && x <= net + 1
                 && (WithFees(Guess(budget, a, b, c), a, b, c) <= budget + 1 ==> x <= net)
  {
    var n := Guess(budget, a, b, c);
    var net := Corrected(budget, a, b, c);
    GuessBounds(budget, a, b, c);
    WithFeesGrows(net, n, a, b, c);
    forall x: nat | Affordable(x, budget, a, b, c)
      ensures x <= n && (budget < WithFees(n, a, b, c) ==> x < n)
    {
    }
  }

  ghost predicate IsLargest(net: nat, budget: nat, a: nat, b: nat, c: nat) {
    && Affordable(net, budget, a, b, c)
    && forall x: nat :: Affordable(x, budget, a, b, c) ==> x <= net
  }

  /** The guess overspends by two units, and its own last unit raised some rounded-up fee. */
  predicate FallsShort(budget: nat, a: nat, b: nat, c: nat) {
    var n := Guess(budget, a, b, c);
    && WithFees(n, a, b, c) == budget + 2 && 2 <= n
    && (Ceil(n - 1, a) < Ceil(n, a) || Ceil(n - 1, b) < Ceil(n, b) || Ceil(n - 1, c) < Ceil(n, c))
  }

  /** The corrected net is the largest affordable input exactly when the correction does not fall
      short; when it does, the largest is one unit more. */
  lemma CorrectedIsLargestExactly(budget: nat, a: nat, b: nat, c: nat)
    ensures IsLargest(Corrected(budget, a, b, c), budget, a, b, c) <==> !FallsShort(budget, a, b, c)
    ensures FallsShort(budget, a, b, c) ==> IsLargest(Corrected(budget, a, b, c) + 1, budget, a, b, c)
  {
    var n := Guess(budget, a, b, c);
    GuessBounds(budget, a, b, c);
    CorrectedIsNearlyLargest(budget, a, b, c);
    if 2 <= n && WithFees(n, a, b, c) == budget + 2 {
      CeilGrows(n - 1, n, a);
      CeilGrows(n - 1, n, b);
      CeilGrows(n - 1, n, c);
      assert Affordable(n - 1, budget, a, b, c)
        <==> Ceil(n - 1, a) < Ceil(n, a) || Ceil(n - 1, b) < Ceil(n, b) || Ceil(n - 1, c) < Ceil(n, c);
    }
  }

  /** With two fees the corrected net is exactly the largest affordable input. */
  lemma TwoFeeCorrectionIsLargest(budget: nat, a: nat, b: nat)
    ensures Affordable(Corrected(budget, a, b, 0), budget, a, b, 0)
    ensures forall x: nat :: Affordable(x, budget, a, b, 0) <==> x <= Corrected(budget, a, b, 0)
  {
    var net := Corrected(budget, a, b, 0);
    GuessBounds(budget, a, b, 0);
    CorrectedIsNearlyLargest(budget, a, b, 0);
    forall x: nat | x <= net
      ensures Affordable(x, budget, a, b, 0)
    {
      WithFeesGrows(x, net, a, b, 0);
    }
  }

  /** With three fees it is not: a budget of 15 affords a net of 10, but the correction settles
      for 9. */
  lemma ThreeFeeCorrectionCanFallShort()
    ensures Corrected(15, 2500, 2, 1000) == 9
    ensures Affordable(10, 15, 2500, 2, 1000)
  {
    assert Guess(15, 2500, 2, 1000) == 11;
    assert WithFees(11, 2500, 2, 1000) == 17;
    assert WithFees(10, 2500, 2, 1000) == 15;
  }

  /** A larger budget corrects to no smaller two-fee net. */
  lemma CorrectedIsMonotone(budget: nat, more: nat, a: nat, b: nat)
    requires budget <= more
    ensures Corrected(budget, a, b, 0) <= Corrected(more, a, b, 0)
  {
    TwoFeeCorrectionIsLargest(budget, a, b);
    TwoFeeCorrectionIsLargest(more, a, b);
    assert Affordable(Corrected(budget, a, b, 0), more, a, b, 0);
  }

  /** An input priced with its own fees corrects back to itself. */
  lemma CorrectedOfWithFees(net: nat, a: nat, b: nat)
    ensures Corrected(WithFees(net, a, b, 0), a, b, 0) == net
  {
    var budget := WithFees(net, a, b, 0);
    var x := Corrected(budget, a, b, 0);
    TwoFeeCorrectionIsLargest(budget, a, b);
    assert Affordable(net, budget, a, b, 0);
    if net < x {
      WithFeesGrows(net, x, a, b, 0);
    }
  }
}
