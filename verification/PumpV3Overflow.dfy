/** Where the Pump V3 quotes could overflow u128: the exact-input quote never does, and the exact-output
    quote does exactly beyond a limit on its nets (crates/sdk/src/pumpfun_v3.rs:110-206, 513-521). */
module PumpV3Overflow {
  import opened Wrappers
  import opened Arith
  import opened PumpFees
  import opened PumpFun
  import opened PumpV3

  // ----- exact input -----

  lemma FitsU128(a: u64, b: u64)
    ensures a * b <= U128_MAX
  {
    var product := Mul128(a, b);
  }

  /** What a net with its fees multiplies and adds stays within u128. */
  ghost predicate FeesFit(net: nat, rates: Rates) {
    && net <= U64_MAX
    && net * rates.protocol <= U128_MAX && net * rates.creator <= U128_MAX
    && WithRates(net, rates) <= U128_MAX
  }

  /** So does everything `net_quote` multiplies and adds. */
  ghost predicate NetQuoteFits(budget: nat, rates: Rates) {
    && budget <= U64_MAX && budget * BPS <= U128_MAX
    && FeesFit(Guess(budget, rates.protocol, rates.creator, 0), rates)
    && Net(budget, rates) <= U64_MAX
  }

  lemma NetQuoteOfU64Fits(budget: u64, rates: Rates)
    ensures NetQuoteFits(budget, rates)
  {
    var guess := Guess(budget, rates.protocol, rates.creator, 0);
    NetWithinBudget(budget, rates);
    GuessBounds(budget, rates.protocol, rates.creator, 0);
    FitsU128(guess, rates.protocol);
    FitsU128(guess, rates.creator);
  }

  /** The products and sums of the crossing stay within u128. */
  ghost predicate CrossingFits(pool: PumpV3Pool, budget: u64, rates: Rates)
    requires pool.curve.realTokenReserves < pool.curve.virtualTokenReserves
  {
    var remaining := pool.curve.realTokenReserves;
    var left := LeftAfterCurve(pool.curve, budget, rates);
    && remaining * pool.curve.virtualSolReserves <= U128_MAX
    && FeesFit(CurveNet(pool.curve, remaining), rates)
    && NetQuoteFits(left, rates)
    && Net(left, rates) * pool.curveBaseTokenBalance <= U128_MAX
  }

  lemma CrossingNeverOverflows(pool: PumpV3Pool, budget: u64)
    requires Crosses(pool, budget)
    ensures pool.curve.realTokenReserves < pool.curve.virtualTokenReserves
    ensures CrossingFits(pool, budget, V3Rates(pool).value)
  {
    var rates := V3Rates(pool).value;
    CrossingConservesBudget(pool, budget);
    NetWithinBudget(budget, rates);
    var curveNet := CurveNet(pool.curve, pool.curve.realTokenReserves);
    var left := LeftAfterCurve(pool.curve, budget, rates);
    FitsU128(pool.curve.realTokenReserves, pool.curve.virtualSolReserves);
    FitsU128(curveNet, rates.protocol);
    FitsU128(curveNet, rates.creator);
    NetQuoteOfU64Fits(left, rates);
    FitsU128(Net(left, rates), pool.curveBaseTokenBalance);
  }

  /** No product or sum of an exact-input quote overflows u128, for any snapshot and budget, crossing
      or not. */
  lemma BuyQuoteNeverOverflows(pool: PumpV3Pool, budget: u64)
    requires V3Rates(pool).Success?
    ensures var rates := V3Rates(pool).value;
            && NetQuoteFits(budget, rates)
            && Net(budget, rates) * pool.curve.virtualTokenReserves <= U128_MAX
            && (Crosses(pool, budget) ==>
                  && pool.curve.realTokenReserves < pool.curve.virtualTokenReserves
                  && CrossingFits(pool, budget, rates))
  {
    var rates := V3Rates(pool).value;
    NetQuoteOfU64Fits(budget, rates);
    FitsU128(Net(budget, rates), pool.curve.virtualTokenReserves);
    if Crosses(pool, budget) {
      CrossingNeverOverflows(pool, budget);
    }
  }

  // ----- exact output -----

  /** The largest net whose fees and total fit u128. */
  function FeeLimit(rates: Rates): nat {
    var rate := Max(1, Max(rates.protocol, rates.creator));
    FloorBounds(U128_MAX, rate);
    Min(U128_MAX / rate, Net(U128_MAX, rates))
  }

  lemma FeesFitUpToLimit(x: nat, rates: Rates)
    ensures CheckedWithRates(x, rates) == Success(WithRates(x, rates)) <==> x <= FeeLimit(rates)
    ensures CheckedWithRates(x, rates).Failure? <==> FeeLimit(rates) < x
  {
    var rate := Max(1, Max(rates.protocol, rates.creator));
    NetAffords(U128_MAX, rates, x);
    FloorGalois(U128_MAX, rate, x);
    MulMono(rates.protocol, rate, x);
    MulMono(rates.creator, rate, x);
    WithFeesGrows(0, x, rates.protocol, rates.creator, 0);
  }

  /** The exact-output checks up to its first total pass. */
  predicate Prices(pool: PumpV3Pool, amount: u64) {
    && V3Rates(pool).Success? && 0 < amount && 0 < pool.curve.virtualSolReserves
    && !(pool.mayhemMode && pool.curve.realTokenReserves < amount)
    && Min(amount, pool.curve.realTokenReserves) < pool.curve.virtualTokenReserves
  }

  /** The net of the pool-to-be for what the curve cannot deliver, if there is such a pool. */
  function BeyondCurve(pool: PumpV3Pool, amount: u64): Option<nat>
    requires Prices(pool, amount)
  {
    var remaining := pool.curve.realTokenReserves;
    if amount <= remaining || !pool.supportsGraduation then None
    else
      var leg := PoolLegNet(pool, amount - remaining, CurveNet(pool.curve, remaining));
      if leg.Success? then Some(leg.value) else None
  }

  /** Apart from the fees nothing in an exact-output quote overflows u128. */
  lemma PricesFit(pool: PumpV3Pool, amount: u64)
    requires Prices(pool, amount)
    ensures var tokens := Min(amount, pool.curve.realTokenReserves);
            var net := CurveNet(pool.curve, tokens);
            && tokens * pool.curve.virtualSolReserves < U128_MAX
            && pool.realQuoteReserves + net <= U128_MAX
            && (BeyondCurve(pool, amount).Some? ==> PoolQuote(pool, net) * (amount - tokens) <= U128_MAX)
  {
    var tokens := Min(amount, pool.curve.realTokenReserves);
    var product := Mul128(tokens, pool.curve.virtualSolReserves);
    FloorGalois(product, pool.curve.virtualTokenReserves - tokens, product + 1);
    MulMono(1, pool.curve.virtualTokenReserves - tokens, product + 1);
    if BeyondCurve(pool, amount).Some? {
      FitsU128(PoolQuote(pool, CurveNet(pool.curve, tokens)), amount - tokens);
    }
  }

  /** An exact-output quote overflows u128 exactly when one of its two nets exceeds the fee limit of its
      rates or their totals together exceed u128. */
  lemma OverflowExactly(pool: PumpV3Pool, amount: u64)
    ensures QuoteForTokens(pool, amount) == Failure(ArithmeticOverflow)
            <==> && Prices(pool, amount)
                 && var rates := V3Rates(pool).value;
                    var net := CurveNet(pool.curve, Min(amount, pool.curve.realTokenReserves));
                    var leg := BeyondCurve(pool, amount);
                    || FeeLimit(rates) < net
                    || (leg.Some? && FeeLimit(rates) < leg.value)
                    || (leg.Some? && U128_MAX < WithRates(net, rates) + WithRates(leg.value, rates))
  {
    if Prices(pool, amount) {
      var rates := V3Rates(pool).value;
      FeesFitUpToLimit(CurveNet(pool.curve, Min(amount, pool.curve.realTokenReserves)), rates);
      if BeyondCurve(pool, amount).Some? {
        FeesFitUpToLimit(BeyondCurve(pool, amount).value, rates);
      }
    }
  }

  lemma OverflowIsBeyondU64(x: nat, rates: Rates)
    requires rates.protocol < BPS && rates.creator < BPS && CheckedWithRates(x, rates).Failure?
    ensures U64_MAX < WithRates(x, rates)
  {
    MulMono(rates.protocol, BPS, x);
    MulMono(rates.creator, BPS, x);
  }

  /** Then the true price exceeds u64: no payable price is ever lost to an overflow. */
  lemma OverflowOnlyBeyondU64(pool: PumpV3Pool, amount: u64)
    requires QuoteForTokens(pool, amount) == Failure(ArithmeticOverflow)
    ensures Prices(pool, amount)
    ensures var rates := V3Rates(pool).value;
            var net := CurveNet(pool.curve, Min(amount, pool.curve.realTokenReserves));
            var leg := BeyondCurve(pool, amount);
            U64_MAX < WithRates(net, rates) + if leg.Some? then WithRates(leg.value, rates) else 0
  {
    var rates := V3Rates(pool).value;
    var net := CurveNet(pool.curve, Min(amount, pool.curve.realTokenReserves));
    if CheckedWithRates(net, rates).Failure? {
      OverflowIsBeyondU64(net, rates);
    } else if CheckedWithRates(BeyondCurve(pool, amount).value, rates).Failure? {
      OverflowIsBeyondU64(BeyondCurve(pool, amount).value, rates);
    }
  }

  // ----- the release build -----

  function Wrap(x: nat): (r: u128)
    ensures x <= U128_MAX ==> r == x
  {
    x % 0x1_0000_0000_0000_0000_0000_0000_0000_0000
  }

  /** An input with its fees, where products and sums wrap. */
  function WrappedWithRates(x: nat, rates: Rates): u128 {
    Wrap(x + Wrap(DivCeil(Wrap(x * rates.protocol), BPS) + DivCeil(Wrap(x * rates.creator), BPS)))
  }

  /** The source's `buy_quote_for_tokens` in a build without overflow checks. */
  function ReleaseQuoteForTokens(pool: PumpV3Pool, amount: u64): Result<u64, PumpError> {
    var rates :- V3Rates(pool);
    var curve := pool.curve;
    var remaining := curve.realTokenReserves;
    if amount == 0 then Failure(InvalidInput)
    else if pool.mayhemMode && amount > remaining then Failure(MayhemGraduation)
    else if curve.virtualSolReserves == 0 then Failure(EmptyReserves)
    else if curve.virtualTokenReserves <= Min(amount, remaining) then Failure(ReserveExhausted)
    else
      var net := CurveNet(curve, Min(amount, remaining));
      if amount <= remaining then PositiveU64(WrappedWithRates(net, rates))
      else if !pool.supportsGraduation then Failure(GraduationDisabled)
      else
        var legNet :- PoolLegNet(pool, amount - remaining, net);
        PositiveU64(Wrap(WrappedWithRates(net, rates) + WrappedWithRates(legNet, rates)))
  }

  lemma WrappedIsExact(x: nat, rates: Rates)
    requires CheckedWithRates(x, rates).Success?
    ensures WrappedWithRates(x, rates) == CheckedWithRates(x, rates).value
  {
    WithFeesGrows(0, x, rates.protocol, rates.creator, 0);
  }

  /** The two builds differ exactly on overflow. */
  lemma BuildsAgreeExactly(pool: PumpV3Pool, amount: u64)
    ensures ReleaseQuoteForTokens(pool, amount) == QuoteForTokens(pool, amount)
            <==> QuoteForTokens(pool, amount) != Failure(ArithmeticOverflow)
  {
    if Prices(pool, amount) && QuoteForTokens(pool, amount) != Failure(ArithmeticOverflow) {
      WrappedIsExact(CurveNet(pool.curve, Min(amount, pool.curve.realTokenReserves)), V3Rates(pool).value);
      if BeyondCurve(pool, amount).Some? {
        WrappedIsExact(BeyondCurve(pool, amount).value, V3Rates(pool).value);
      }
    }
  }

  lemma WrapIs(x: nat, r: u128)
    requires x == 0x1_0000_0000_0000_0000_0000_0000_0000_0000 + r
    ensures Wrap(x) == r
  {
  }

  /** The wrap of a net priced with a fee of one basis point. */
  lemma OneBasisPointWraps(x: nat, rates: Rates)
    requires rates.protocol == 1 && rates.creator == 0 && x == 340248342086729790496343026893100674001
    ensures CheckedWithRates(x, rates).Failure? && WrappedWithRates(x, rates) == 12018053764021772613
  {
    var fee := 34024834208672979049634302689310068;
    CeilGalois(x, BPS, fee);
    CeilGalois(x, BPS, fee - 1);
    CeilGalois(0, BPS, 0);
    WrapIs(x + fee, 12018053764021772613);
  }

  /** Buying out a curve that keeps one virtual token costs the product of its reserves, plus one. */
  lemma LastTokenPrice(pool: PumpV3Pool, amount: u64, rates: Rates, net: nat)
    requires V3Rates(pool) == Success(rates) && 0 < amount && 0 < pool.curve.virtualSolReserves
    requires amount == pool.curve.realTokenReserves && pool.curve.virtualTokenReserves == amount + 1
    requires net == amount * pool.curve.virtualSolReserves + 1
    ensures CheckedWithRates(net, rates).Failure? ==> QuoteForTokens(pool, amount) == Failure(ArithmeticOverflow)
    ensures ReleaseQuoteForTokens(pool, amount) == PositiveU64(WrappedWithRates(net, rates))
  {
    assert CurveNet(pool.curve, amount) == net;
  }

  lemma LastTokenPool(sol: u64, tokens: u64) returns (pool: PumpV3Pool)
    requires tokens < U64_MAX
    ensures V3Rates(pool) == Success(Rates(1, 0)) && pool.curve.virtualSolReserves == sol
    ensures pool.curve.realTokenReserves == tokens && pool.curve.virtualTokenReserves == tokens + 1
  {
    pool := PumpV3Pool(PumpCurve(tokens + 1, sol, tokens, 1, 0, true, false, false), false, true, false, false, 0, 0, 0,
                       false);
  }

  /** On overflow the release build can quote a payable price for a target whose true price is not. */
  lemma ReleaseCanWrap() returns (pool: PumpV3Pool, amount: u64)
    ensures QuoteForTokens(pool, amount) == Failure(ArithmeticOverflow)
    ensures ReleaseQuoteForTokens(pool, amount) == Success(12018053764021772613)
  {
    var sol: u64, net: nat :| sol == 18444899583751176515 && net == 340248342086729790496343026893100674001;
    amount :| amount == 18446744073709551600;
    pool := LastTokenPool(sol, amount);
    OneBasisPointWraps(net, Rates(1, 0));
    LastTokenPrice(pool, amount, Rates(1, 0), net);
  }
}
