/** The PumpSwap exact-input buy, with three fees (crates/sdk/src/quote.rs:725-762). */
module PumpSwap {
  import opened Wrappers
  import opened Arith
  import opened Curve
  import opened PumpFees

  type i128 = x: int | -0x8000_0000_0000_0000_0000_0000_0000_0000 <= x < 0x8000_0000_0000_0000_0000_0000_0000_0000

  datatype PumpSwapPool = PumpSwapPool(
    baseReserve: u64,
    quoteReserve: u64,
    virtualQuoteReserves: i128,
    lpFeeBps: u64,
    protocolFeeBps: u64,
    creatorFeeBps: u64)
  {
    /** Input plus the three fees, each rounded up. */
    function WithPoolFees(x: nat): nat {
      WithFees(x, lpFeeBps, protocolFeeBps, creatorFeeBps)
    }

    /** The effective input after the correction. */
    function Net(quoteIn: u64): nat {
      Corrected(quoteIn, lpFeeBps, protocolFeeBps, creatorFeeBps)
    }

    /** No affordable input exceeds `n`. */
    ghost predicate Bounds(n: nat, quoteIn: u64) {
      forall x: nat :: WithPoolFees(x) <= quoteIn ==> x <= n
    }
  }

  datatype PumpSwapError =
    | InvalidInput
    | FeeOverflow
    | InputTooSmall
    | InvalidEffectiveReserve

  /** Real plus virtual quote; an i128 overflow and a sum outside u64 are both refused. */
  function EffectiveQuote(pool: PumpSwapPool): Result<u64, PumpSwapError> {
    var effective := pool.quoteReserve + pool.virtualQuoteReserves;
    if effective <= 0 || effective > U64_MAX then Failure(InvalidEffectiveReserve) else Success(effective)
  }

  /** What the buy promises: one unit less than the corrected net enters the curve. */
  function BuyQuote(pool: PumpSwapPool, quoteIn: u64): Result<u64, PumpSwapError> {
    var net := pool.Net(quoteIn);
    if quoteIn == 0 || pool.baseReserve == 0 || pool.quoteReserve == 0 then Failure(InvalidInput)
    else if BPS + pool.lpFeeBps + pool.protocolFeeBps + pool.creatorFeeBps > U64_MAX then Failure(FeeOverflow)
    else if net == 0 then Failure(InputTooSmall)
    else
      var effective :- EffectiveQuote(pool);
      CurveOutBelowReserve(effective, pool.baseReserve, net - 1);
      Success(CurveOut(effective, pool.baseReserve, net - 1))
  }

  lemma CorrectionFits(pool: PumpSwapPool, quoteIn: u64)
    ensures var a, b, c := pool.lpFeeBps, pool.protocolFeeBps, pool.creatorFeeBps;
            var guess := Guess(quoteIn, a, b, c);
            && guess <= quoteIn
            && guess + ComputeFeeBps(guess, a) + ComputeFeeBps(guess, b) + ComputeFeeBps(guess, c)
               == pool.WithPoolFees(guess) <= quoteIn + 2
  {
    var a, b, c := pool.lpFeeBps, pool.protocolFeeBps, pool.creatorFeeBps;
    GuessBounds(quoteIn, a, b, c);
    GuessWithinBudget(quoteIn, a, b, c);
    var guess := Guess(quoteIn, a, b, c);
    SplitFeeOfU64(guess, a);
    SplitFeeOfU64(guess, b);
    SplitFeeOfU64(guess, c);
  }

  /** The source's `pumpswap_buy_base_out`, correcting the effective input in place. */
  method BuyBaseOut(pool: PumpSwapPool, quoteIn: u64) returns (r: Result<u64, PumpSwapError>)
    ensures r == BuyQuote(pool, quoteIn)
  {
    if quoteIn == 0 || pool.baseReserve == 0 || pool.quoteReserve == 0 {
      return Failure(InvalidInput);
    }
    var totalFeeBps := pool.lpFeeBps + pool.protocolFeeBps + pool.creatorFeeBps;
    if totalFeeBps > U64_MAX || BPS + totalFeeBps > U64_MAX {
      return Failure(FeeOverflow);
    }
    CorrectionFits(pool, quoteIn);
    var effectiveIn := Guess(quoteIn, pool.lpFeeBps, pool.protocolFeeBps, pool.creatorFeeBps);
    var totalWithFees := effectiveIn + ComputeFeeBps(effectiveIn, pool.lpFeeBps)
                         + ComputeFeeBps(effectiveIn, pool.protocolFeeBps)
                         + ComputeFeeBps(effectiveIn, pool.creatorFeeBps);
    if totalWithFees > quoteIn {
      effectiveIn := Max(0, effectiveIn - (totalWithFees - quoteIn));
    }
    if effectiveIn == 0 {
      return Failure(InputTooSmall);
    }
    var effectiveQuote :- EffectiveQuote(pool);
    CurveOutBelowReserve(effectiveQuote, pool.baseReserve, effectiveIn - 1);
    return Success(CurveOut(effectiveQuote, pool.baseReserve, effectiveIn - 1));
  }

  /** A net input with the pool's three fees, each rounded up on its own. */
  function Cost(pool: PumpSwapPool, x: nat): nat {
    MulMono(0, x, pool.lpFeeBps);
    MulMono(0, x, pool.protocolFeeBps);
    MulMono(0, x, pool.creatorFeeBps);
    x + DivCeil(x * pool.lpFeeBps, 10_000) + DivCeil(x * pool.protocolFeeBps, 10_000)
    + DivCeil(x * pool.creatorFeeBps, 10_000)
  }

  /** `guess` inverts the three fees together, and `net` takes off what it overspends. */
  ghost predicate Corrects(pool: PumpSwapPool, quoteIn: u64, guess: nat, net: nat) {
    && IsQuotient(guess, quoteIn * 10_000, 10_000 + pool.lpFeeBps + pool.protocolFeeBps + pool.creatorFeeBps)
    && net == Max(0, guess - Max(0, Cost(pool, guess) - quoteIn))
  }

  /** The base sold for one unit less than `net`, against the real and virtual quote together. */
  ghost predicate Sells(pool: PumpSwapPool, net: nat, out: int) {
    && 0 < net
    && IsQuotient(out, (net - 1) * pool.baseReserve, pool.quoteReserve + pool.virtualQuoteReserves + net - 1)
  }

  lemma CorrectsExactly(pool: PumpSwapPool, quoteIn: u64, guess: nat, net: nat)
    ensures Corrects(pool, quoteIn, guess, net)
            <==> && guess == Guess(quoteIn, pool.lpFeeBps, pool.protocolFeeBps, pool.creatorFeeBps)
                 && net == pool.Net(quoteIn)
  {
    CeilGalois(0, BPS, 0);
    assert Cost(pool, guess) == pool.WithPoolFees(guess);
    QuotientIsUnique(guess, quoteIn * 10_000, 10_000 + pool.lpFeeBps + pool.protocolFeeBps + pool.creatorFeeBps);
  }

  lemma SellsExactly(pool: PumpSwapPool, net: nat, out: u64)
    requires 0 < net && 0 < pool.quoteReserve + pool.virtualQuoteReserves
    ensures Sells(pool, net, out)
            <==> out == CurveOut(pool.quoteReserve + pool.virtualQuoteReserves, pool.baseReserve, net - 1)
  {
    CurveOutExactly(pool.quoteReserve + pool.virtualQuoteReserves, pool.baseReserve, net - 1, out);
  }

  /** A buy succeeds with an amount exactly when the pool's fields say so. */
  lemma BuyExactly(pool: PumpSwapPool, quoteIn: u64, out: u64)
    ensures BuyQuote(pool, quoteIn) == Success(out)
            <==> && 0 < quoteIn && 0 < pool.baseReserve && 0 < pool.quoteReserve
                 && 10_000 + pool.lpFeeBps + pool.protocolFeeBps + pool.creatorFeeBps <= U64_MAX
                 && 0 < pool.quoteReserve + pool.virtualQuoteReserves <= U64_MAX
                 && exists guess: nat, net: nat :: Corrects(pool, quoteIn, guess, net) && Sells(pool, net, out)
  {
    forall guess: nat, net: nat
      ensures Corrects(pool, quoteIn, guess, net)
              <==> && guess == Guess(quoteIn, pool.lpFeeBps, pool.protocolFeeBps, pool.creatorFeeBps)
                   && net == pool.Net(quoteIn)
    {
      CorrectsExactly(pool, quoteIn, guess, net);
    }
    assert Corrects(pool, quoteIn, Guess(quoteIn, pool.lpFeeBps, pool.protocolFeeBps, pool.creatorFeeBps),
                    pool.Net(quoteIn));
    if 0 < pool.Net(quoteIn) && 0 < pool.quoteReserve + pool.virtualQuoteReserves {
      SellsExactly(pool, pool.Net(quoteIn), out);
    }
  }

  /** A quoted buy puts all but one unit of its net into the curve. That net and its three fees are
      covered by the input, at most one unit more was affordable, and none exactly when the
      correction does not fall short. */
  lemma BuyNeverOverspends(pool: PumpSwapPool, quoteIn: u64)
    requires BuyQuote(pool, quoteIn).Success?
    ensures var n := pool.Net(quoteIn);
            && 0 < n && pool.WithPoolFees(n) <= quoteIn
            && BuyQuote(pool, quoteIn).value == CurveOut(EffectiveQuote(pool).value, pool.baseReserve, n - 1)
            && pool.Bounds(n + 1, quoteIn)
            && (pool.Bounds(n, quoteIn)
                <==> !FallsShort(quoteIn, pool.lpFeeBps, pool.protocolFeeBps, pool.creatorFeeBps))
  {
    var a, b, c := pool.lpFeeBps, pool.protocolFeeBps, pool.creatorFeeBps;
    CorrectedIsNearlyLargest(quoteIn, a, b, c);
    CorrectedIsLargestExactly(quoteIn, a, b, c);
    assert forall x: nat :: Affordable(x, quoteIn, a, b, c) <==> pool.WithPoolFees(x) <= quoteIn;
  }
}
