/** The capped Token-2022 transfer fee and its inverse (crates/sdk/src/transfer_fee.rs). */
module TransferFee {
  import opened Arith
  import opened Curve

  const BPS: nat := 10_000

  datatype TokenTransferFee = TokenTransferFee(basisPoints: u16, maximumFee: u64) {

    function Calculate(amount: u64): (fee: u64)
      ensures fee <= maximumFee
    {
      if basisPoints == 0 || amount == 0 || maximumFee == 0 then 0
      else Min(DivCeil(Mul128(amount, basisPoints), BPS), maximumFee)
    }

    function CalculateInverse(postFeeAmount: u64): (fee: u64)
      ensures fee <= maximumFee
    {
      if basisPoints == 0 || postFeeAmount == 0 || maximumFee == 0 then 0
      else if basisPoints >= BPS then maximumFee
      else Min(DivCeil(Mul128(postFeeAmount, basisPoints), BPS - basisPoints), maximumFee)
    }

    /** What the recipient is credited; negative when the fee exceeds the amount. */
    function Net(amount: u64): int {
      amount - Calculate(amount)
    }
  }

  /** `charged` is the fee on `amount`: its basis points, one ten-thousandth each and rounded up, unless
      the maximum is smaller. */
  ghost predicate Charges(f: TokenTransferFee, amount: nat, charged: int) {
    && 0 <= charged <= f.maximumFee
    && charged * 10_000 < amount * f.basisPoints + 10_000
    && (amount * f.basisPoints <= charged * 10_000 || charged == f.maximumFee)
  }

  lemma ChargesExactly(f: TokenTransferFee, amount: u64, charged: int)
    ensures Charges(f, amount, charged) <==> charged == f.Calculate(amount)
  {
    MulMono(0, amount, f.basisPoints);
    CeilGalois(amount * f.basisPoints, 10_000, charged);
    CeilGalois(amount * f.basisPoints, 10_000, charged - 1);
  }

  /** `charged` is the fee that leaves `post`: the basis points of what it leaves over, rounded up, unless
      the maximum is smaller; the maximum itself from 100% on. */
  ghost predicate ChargesOnTop(f: TokenTransferFee, post: nat, charged: int) {
    var left := 10_000 - f.basisPoints;
    && 0 <= charged <= f.maximumFee
    && (0 < left ==> charged * left < post * f.basisPoints + left)
    && (charged == f.maximumFee || (0 < left && post * f.basisPoints <= charged * left))
  }

  lemma InverseExactly(f: TokenTransferFee, post: u64, charged: int)
    ensures post == 0 ==> f.CalculateInverse(post) == 0
    ensures 0 < post ==> (ChargesOnTop(f, post, charged) <==> charged == f.CalculateInverse(post))
  {
    if f.basisPoints < 10_000 {
      MulMono(0, post, f.basisPoints);
      CeilGalois(post * f.basisPoints, 10_000 - f.basisPoints, charged);
      CeilGalois(post * f.basisPoints, 10_000 - f.basisPoints, charged - 1);
    }
  }

  /** Below 100%, a fee of `inv` on top of `post` is the fee on the whole, rounded up. */
  lemma InverseBounds(post: nat, b: nat, inv: nat)
    requires 0 < b < BPS && 0 < inv <= DivCeil(post * b, BPS - b)
    ensures (inv - 1) * BPS < (post + inv) * b
    ensures inv == DivCeil(post * b, BPS - b) ==> (post + inv) * b <= inv * BPS
  {
    var u := DivCeil(post * b, BPS - b);
    MulMono(inv, u, BPS - b);
    assert (post + inv) * b == post * b + inv * b;
  }

  lemma FeeOnGrossIsInverse(post: nat, b: nat, inv: nat, m: nat)
    requires 0 < b && 0 < post && 0 < m
    requires inv == if b >= BPS then m else Min(DivCeil(post * b, BPS - b), m)
    ensures Min(DivCeil((post + inv) * b, BPS), m) == inv
  {
    if b >= BPS {
      MulMono(BPS, b, post + inv);
      CeilGalois((post + inv) * b, BPS, m - 1);
    } else {
      MulMono(1, post, b);
      CeilGalois(post * b, BPS - b, 0);
      InverseBounds(post, b, inv);
      CeilGalois((post + inv) * b, BPS, inv - 1);
      CeilGalois((post + inv) * b, BPS, inv);
    }
  }

  /** Adding the inverse fee makes the recipient receive exactly the requested amount, in the
      uncapped, capped and all-consuming regimes alike. */
  lemma InverseIsExact(f: TokenTransferFee, post: u64)
    requires post + f.CalculateInverse(post) <= U64_MAX
    ensures f.Calculate(post + f.CalculateInverse(post)) == f.CalculateInverse(post)
  {
    if f.basisPoints != 0 && post != 0 && f.maximumFee != 0 {
      FeeOnGrossIsInverse(post, f.basisPoints, f.CalculateInverse(post), f.maximumFee);
    }
  }

  /** A fee below the cap is at least the uncapped inverse of what it leaves. */
  lemma UncappedFeeCoversInverse(post: nat, b: nat, fee: nat, gross: nat)
    requires 0 < b && 0 < post && post + fee <= gross && gross * b <= fee * BPS
    ensures b < BPS && DivCeil(post * b, BPS - b) <= fee
  {
    MulMono(post + fee, gross, b);
    assert (post + fee) * b == post * b + fee * b;
    if b >= BPS {
      MulMono(BPS, b, fee);
      assert false;
    }
    CeilGalois(post * b, BPS - b, fee);
  }

  /** No smaller gross amount nets at least the requested amount. */
  lemma InverseIsLeast(f: TokenTransferFee, post: u64, gross: u64)
    requires post <= f.Net(gross)
    ensures post + f.CalculateInverse(post) <= gross
  {
    var b, m := f.basisPoints, f.maximumFee;
    if b != 0 && post != 0 && m != 0 {
      var fee := DivCeil(gross * b, BPS);
      if fee < m {
        UncappedFeeCoversInverse(post, b, fee, gross);
      }
    }
  }

  /** The recipient's credit never falls as the gross amount grows. */
  lemma NetIsMonotone(f: TokenTransferFee, a: u64, b: u64)
    requires f.basisPoints <= BPS && a <= b
    ensures 0 <= f.Net(a) <= f.Net(b)
  {
    CeilFeeIsLipschitz(a, b, f.basisPoints, BPS);
  }
}
