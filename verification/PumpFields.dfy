/** What the Pump quotes mean on the fields of the curve and the pool
    (crates/sdk/src/quote.rs:675-709; crates/sdk/src/pumpfun_v3.rs:94-206). */
module PumpFields {
  import opened Wrappers
  import opened Arith
  import opened Curve
  import opened PumpFees
  import opened PumpFun
  import opened PumpV3

  // ----- rates and nets -----

  /** The creator's share is charged only when there is a creator. */
  function CreatorBps(curve: PumpCurve): u64 {
    if curve.hasCreator then curve.creatorFeeBps else 0
  }

  predicate Rated(curve: PumpCurve) {
    curve.feeRatesKnown && curve.protocolFeeBps + CreatorBps(curve) < 10_000
  }

  lemma RatesExactly(pool: PumpV3Pool, rates: Rates)
    ensures V1Rates(pool.curve) == Success(rates)
            <==> Rated(pool.curve) && rates == Rates(pool.curve.protocolFeeBps, CreatorBps(pool.curve))
    ensures V3Rates(pool) == Success(rates)
            <==> && Rated(pool.curve) && rates == Rates(pool.curve.protocolFeeBps, CreatorBps(pool.curve))
                 && !pool.complete && !pool.curve.isCashbackCoin && pool.identitiesValid
  {
  }

  /** A net input with the curve's two fees, each rounded up on its own. */
  function Cost(curve: PumpCurve, x: nat): nat {
    MulMono(0, x, curve.protocolFeeBps);
    MulMono(0, x, CreatorBps(curve));
    x + DivCeil(x * curve.protocolFeeBps, 10_000) + DivCeil(x * CreatorBps(curve), 10_000)
  }

  /** The largest net input that `budget` affords. */
  ghost predicate LargestNet(curve: PumpCurve, budget: nat, net: nat) {
    Cost(curve, net) <= budget && forall x: nat :: Cost(curve, x) <= budget ==> x <= net
  }

  lemma CostExactly(curve: PumpCurve, x: nat)
    ensures Cost(curve, x) == WithRates(x, Rates(curve.protocolFeeBps, CreatorBps(curve)))
  {
    CeilGalois(0, BPS, 0);
  }

  lemma LargestNetExactly(curve: PumpCurve, budget: nat, net: nat)
    ensures LargestNet(curve, budget, net) <==> net == Net(budget, Rates(curve.protocolFeeBps, CreatorBps(curve)))
  {
    var rates := Rates(curve.protocolFeeBps, CreatorBps(curve));
    NetQuoteIsLargest(budget, rates);
    forall x: nat
      ensures Cost(curve, x) == WithRates(x, rates)
    {
      CostExactly(curve, x);
    }
    assert Cost(curve, Net(budget, rates)) <= budget;
  }

  // ----- V1 -----

  /** The curve sells `tokens` for one unit less than `net`. */
  ghost predicate Sells(curve: PumpCurve, net: nat, tokens: nat) {
    && 0 < net
    && IsQuotient(tokens, (net - 1) * curve.virtualTokenReserves, curve.virtualSolReserves + net - 1)
  }

  lemma SellsExactly(curve: PumpCurve, net: nat, tokens: nat)
    requires 0 < net && 0 < curve.virtualSolReserves
    ensures Sells(curve, net, tokens) <==> tokens == CurveTokens(curve, net)
  {
    CurveOutExactly(curve.virtualSolReserves, curve.virtualTokenReserves, net - 1, tokens);
  }

  /** V1 buys what the curve sells for the largest net, up to what it really holds. */
  lemma V1Exactly(curve: PumpCurve, quoteIn: u64, out: u64)
    ensures V1Quote(curve, quoteIn) == Success(out)
            <==> && Rated(curve) && 0 < quoteIn && 0 < curve.virtualTokenReserves && 0 < curve.virtualSolReserves
                 && exists net: nat, tokens: nat ::
                      && LargestNet(curve, quoteIn, net) && Sells(curve, net, tokens)
                      && out == Min(tokens, curve.realTokenReserves) && 0 < out
  {
    if Rated(curve) && 0 < curve.virtualSolReserves {
      var rates := Rates(curve.protocolFeeBps, CreatorBps(curve));
      assert V1Rates(curve) == Success(rates);
      forall net: nat
        ensures LargestNet(curve, quoteIn, net) <==> net == Net(quoteIn, rates)
      {
        LargestNetExactly(curve, quoteIn, net);
      }
      var net := Net(quoteIn, rates);
      if 0 < net {
        forall tokens: nat
          ensures Sells(curve, net, tokens) <==> tokens == CurveTokens(curve, net)
        {
          SellsExactly(curve, net, tokens);
        }
        assert Sells(curve, net, CurveTokens(curve, net));
      }
    }
  }

  // ----- V3, exact input -----

  /** The net that buys `tokens` off the curve: the rounded-down price plus one. */
  ghost predicate Prices(curve: PumpCurve, tokens: nat, net: nat) {
    && tokens < curve.virtualTokenReserves
    && IsQuotient(net - 1, tokens * curve.virtualSolReserves, curve.virtualTokenReserves - tokens)
  }

  lemma PricesExactly(curve: PumpCurve, tokens: nat, net: nat)
    requires tokens < curve.virtualTokenReserves
    ensures Prices(curve, tokens, net) <==> net == CurveNet(curve, tokens)
  {
    MulMono(0, curve.virtualSolReserves, tokens);
    QuotientIsUnique(net - 1, tokens * curve.virtualSolReserves, curve.virtualTokenReserves - tokens);
  }

  /** What the pool that the curve migrates into holds of the quote token, once completed by `net`. */
  function MigratedQuote(pool: PumpV3Pool, net: nat): int {
    pool.realQuoteReserves + net - if pool.quoteIsWsol then pool.poolMigrationFee else 0
  }

  /** That pool sells `extra` beyond the curve's supply for one unit less than the largest net of `left`. */
  ghost predicate PoolSells(pool: PumpV3Pool, left: nat, curveNet: nat, net: nat, extra: nat) {
    var base := pool.curveBaseTokenBalance - pool.curve.realTokenReserves;
    var quote := MigratedQuote(pool, curveNet);
    && LargestNet(pool.curve, left, net) && 0 < net
    && 0 < base && pool.realQuoteReserves + curveNet <= U64_MAX && 0 < quote
    && IsQuotient(extra, (net - 1) * base, quote + net - 1)
  }

  /** Past graduation: the whole supply at its cost, and with a leftover of at least two units before
      fees, what the pool sells for it. */
  ghost predicate BuysPast(pool: PumpV3Pool, budget: u64, curveNet: nat, net: nat, extra: nat) {
    var left := budget - Cost(pool.curve, curveNet);
    && pool.supportsGraduation && !pool.mayhemMode
    && Prices(pool.curve, pool.curve.realTokenReserves, curveNet)
    && 0 <= left
    && if left * 10_000 < 2 * (10_000 + pool.curve.protocolFeeBps + CreatorBps(pool.curve)) then net == extra == 0
       else PoolSells(pool, left, curveNet, net, extra)
  }

  predicate Tradable(pool: PumpV3Pool) {
    !pool.complete && !pool.curve.isCashbackCoin && pool.identitiesValid && Rated(pool.curve)
  }

  lemma PoolSellsExactly(pool: PumpV3Pool, left: nat, curveNet: nat, net: nat, extra: nat)
    requires Rated(pool.curve)
    requires 0 < pool.curveBaseTokenBalance - pool.curve.realTokenReserves
    requires pool.realQuoteReserves + curveNet <= U64_MAX && 0 < MigratedQuote(pool, curveNet)
    ensures var rates := Rates(pool.curve.protocolFeeBps, CreatorBps(pool.curve));
            PoolSells(pool, left, curveNet, net, extra)
            <==> && net == Net(left, rates) && 0 < net
                 && extra == CurveOut(PoolQuote(pool, curveNet), PoolBase(pool), net - 1)
  {
    LargestNetExactly(pool.curve, left, net);
    if 0 < net {
      CurveOutExactly(MigratedQuote(pool, curveNet), pool.curveBaseTokenBalance - pool.curve.realTokenReserves, net - 1,
                      extra);
    }
  }

  lemma PoolLegExactly(pool: PumpV3Pool, left: nat, curveNet: nat, out: u64)
    requires Rated(pool.curve) && 2 <= Guess(left, pool.curve.protocolFeeBps, CreatorBps(pool.curve), 0)
    ensures PoolLeg(pool, left, curveNet, Rates(pool.curve.protocolFeeBps, CreatorBps(pool.curve))) == Success(out)
            <==> exists net: nat, extra: nat ::
                   PoolSells(pool, left, curveNet, net, extra) && 0 < out == pool.curve.realTokenReserves + extra
  {
    var rates := Rates(pool.curve.protocolFeeBps, CreatorBps(pool.curve));
    NetQuoteIsLargest(left, rates);
    if && 0 < pool.curveBaseTokenBalance - pool.curve.realTokenReserves
       && pool.realQuoteReserves + curveNet <= U64_MAX && 0 < MigratedQuote(pool, curveNet) {
      forall net: nat, extra: nat
        ensures PoolSells(pool, left, curveNet, net, extra)
                <==> && net == Net(left, rates) && 0 < net
                     && extra == CurveOut(PoolQuote(pool, curveNet), PoolBase(pool), net - 1)
      {
        PoolSellsExactly(pool, left, curveNet, net, extra);
      }
      if 0 < Net(left, rates) {
        assert PoolSells(pool, left, curveNet, Net(left, rates),
                         CurveOut(PoolQuote(pool, curveNet), PoolBase(pool), Net(left, rates) - 1));
      }
    }
  }

  ghost predicate BuysAcross(pool: PumpV3Pool, budget: u64, out: u64) {
    exists curveNet: nat, net: nat, extra: nat ::
      BuysPast(pool, budget, curveNet, net, extra) && out == pool.curve.realTokenReserves + extra
  }

  /** A crossing, with what completing the curve costs and leaves known. */
  lemma CrossExactly(pool: PumpV3Pool, budget: u64, out: u64)
    requires Rated(pool.curve) && Crosses(pool, budget) && pool.supportsGraduation && !pool.mayhemMode
    ensures Cross(pool, budget, Rates(pool.curve.protocolFeeBps, CreatorBps(pool.curve))) == Success(out)
            <==> 0 < out && BuysAcross(pool, budget, out)
  {
    var rates := Rates(pool.curve.protocolFeeBps, CreatorBps(pool.curve));
    var remaining := pool.curve.realTokenReserves;
    CrossingConservesBudget(pool, budget);
    var curveNet := CurveNet(pool.curve, remaining);
    var left := LeftAfterCurve(pool.curve, budget, rates);
    CostExactly(pool.curve, curveNet);
    FloorGalois(left * BPS, BPS + rates.protocol + rates.creator, 2);
    forall n: nat
      ensures Prices(pool.curve, remaining, n) <==> n == curveNet
    {
      PricesExactly(pool.curve, remaining, n);
    }
    if Guess(left, rates.protocol, rates.creator, 0) < 2 {
      assert BuysPast(pool, budget, curveNet, 0, 0);
    } else {
      PoolLegExactly(pool, left, curveNet, out);
      if net: nat, extra: nat :| PoolSells(pool, left, curveNet, net, extra) && 0 < out == remaining + extra {
        assert BuysPast(pool, budget, curveNet, net, extra);
      }
    }
  }

  /** V3 buys what the curve sells for the largest net while the supply lasts, and across graduation
      beyond it, exactly when the pool's fields say so. */
  lemma V3Exactly(pool: PumpV3Pool, budget: u64, out: u64)
    ensures BuyQuote(pool, budget) == Success(out)
            <==> && Tradable(pool) && 0 < pool.curve.virtualTokenReserves && 0 < pool.curve.virtualSolReserves
                 && 0 < out
                 && exists net: nat, tokens: nat ::
                      && LargestNet(pool.curve, budget, net) && 1 < net && Sells(pool.curve, net, tokens)
                      && if tokens <= pool.curve.realTokenReserves then out == tokens else BuysAcross(pool, budget, out)
  {
    var rates := Rates(pool.curve.protocolFeeBps, CreatorBps(pool.curve));
    RatesExactly(pool, rates);
    if Tradable(pool) && 0 < pool.curve.virtualTokenReserves && 0 < pool.curve.virtualSolReserves {
      NetQuoteIsLargest(budget, rates);
      forall net: nat
        ensures LargestNet(pool.curve, budget, net) <==> net == Net(budget, rates)
      {
        LargestNetExactly(pool.curve, budget, net);
      }
      V3TradableExactly(pool, budget, out);
    }
  }

  lemma V3TradableExactly(pool: PumpV3Pool, budget: u64, out: u64)
    requires Tradable(pool) && 0 < pool.curve.virtualTokenReserves && 0 < pool.curve.virtualSolReserves
    ensures var net := Net(budget, Rates(pool.curve.protocolFeeBps, CreatorBps(pool.curve)));
            BuyQuote(pool, budget) == Success(out)
            <==> 1 < net && 0 < out
                 && exists tokens: nat ::
                      && Sells(pool.curve, net, tokens)
                      && if tokens <= pool.curve.realTokenReserves then out == tokens else BuysAcross(pool, budget, out)
  {
    var rates := Rates(pool.curve.protocolFeeBps, CreatorBps(pool.curve));
    var net := Net(budget, rates);
    assert V3Rates(pool) == Success(rates);
    NetQuoteIsLargest(budget, rates);
    if 1 < net {
      var sold := CurveTokens(pool.curve, net);
      forall tokens: nat
        ensures Sells(pool.curve, net, tokens) <==> tokens == sold
      {
        SellsExactly(pool.curve, net, tokens);
      }
      assert Sells(pool.curve, net, sold);
      if pool.curve.realTokenReserves < sold && pool.supportsGraduation && !pool.mayhemMode {
        CrossExactly(pool, budget, out);
      }
    }
  }

  // ----- V3, exact output -----

  /** The pool that the curve migrates into can sell `past` tokens. */
  predicate PoolCovers(pool: PumpV3Pool, past: nat, curveNet: nat) {
    && past < pool.curveBaseTokenBalance - pool.curve.realTokenReserves
    && 0 < MigratedQuote(pool, curveNet) <= U64_MAX
  }

  /** Its net price for them, rounded up. */
  function PoolPrice(pool: PumpV3Pool, past: nat, curveNet: nat): nat
    requires PoolCovers(pool, past, curveNet)
  {
    MulMono(0, past, MigratedQuote(pool, curveNet));
    DivCeil(past * MigratedQuote(pool, curveNet), pool.curveBaseTokenBalance - pool.curve.realTokenReserves - past)
  }

  /** What `amount` tokens cost: off the curve, or its whole supply and the rest from the pool it migrates
      into. */
  ghost predicate PricesAs(pool: PumpV3Pool, amount: u64, net: nat, total: nat) {
    var remaining := pool.curve.realTokenReserves;
    && Prices(pool.curve, Min(amount, remaining), net)
    && if amount <= remaining then total == Cost(pool.curve, net)
       else
         && !pool.mayhemMode && pool.supportsGraduation
         && PoolCovers(pool, amount - remaining, net)
         && total == Cost(pool.curve, net) + Cost(pool.curve, PoolPrice(pool, amount - remaining, net))
  }

  lemma PayableFits(curve: PumpCurve, x: nat)
    requires Rated(curve)
    ensures var checked := CheckedWithRates(x, Rates(curve.protocolFeeBps, CreatorBps(curve)));
            && Cost(curve, x) == WithRates(x, Rates(curve.protocolFeeBps, CreatorBps(curve)))
            && (checked.Success? ==> checked.value == Cost(curve, x))
            && (Cost(curve, x) <= U64_MAX ==> checked.Success?)
            && x <= Cost(curve, x)
  {
    CostExactly(curve, x);
    MulMono(curve.protocolFeeBps, 10_000, x);
    MulMono(CreatorBps(curve), 10_000, x);
  }

  lemma OnCurveExactly(pool: PumpV3Pool, amount: u64, total: u64)
    requires Tradable(pool) && 0 < amount && 0 < pool.curve.virtualSolReserves
    requires amount <= pool.curve.realTokenReserves && amount < pool.curve.virtualTokenReserves
    ensures QuoteForTokens(pool, amount) == Success(total)
            <==> PricesAs(pool, amount, CurveNet(pool.curve, amount), total)
  {
    PricesExactly(pool.curve, amount, CurveNet(pool.curve, amount));
    PayableFits(pool.curve, CurveNet(pool.curve, amount));
  }

  lemma PoolPriceExactly(pool: PumpV3Pool, past: nat, net: nat)
    ensures PoolLegNet(pool, past, net).Success? <==> PoolCovers(pool, past, net)
    ensures PoolCovers(pool, past, net) ==> PoolLegNet(pool, past, net).value == PoolPrice(pool, past, net)
  {
  }

  lemma TotalsArePayable(curve: PumpCurve, net: nat, price: nat, total: u64)
    requires Rated(curve) && 0 < net
    ensures var rates := Rates(curve.protocolFeeBps, CreatorBps(curve));
            var c1, c2 := CheckedWithRates(net, rates), CheckedWithRates(price, rates);
            c1.Success? && c2.Success? && total == c1.value + c2.value && 0 < total
            <==> total == Cost(curve, net) + Cost(curve, price)
  {
    PayableFits(curve, net);
    PayableFits(curve, price);
  }

  /** The branch past the curve, with its two totals still unevaluated. */
  ghost predicate TotalsPast(pool: PumpV3Pool, past: nat, rates: Rates, net: nat, total: u64) {
    var leg := PoolLegNet(pool, past, net);
    && !pool.mayhemMode && pool.supportsGraduation && leg.Success?
    && CheckedWithRates(net, rates).Success? && CheckedWithRates(leg.value, rates).Success?
    && total == CheckedWithRates(net, rates).value + CheckedWithRates(leg.value, rates).value
    && 0 < total
  }

  lemma PastCurveTotals(pool: PumpV3Pool, amount: u64, rates: Rates, net: nat, total: u64)
    requires V3Rates(pool) == Success(rates) && 0 < amount && 0 < pool.curve.virtualSolReserves
    requires pool.curve.realTokenReserves < amount && pool.curve.realTokenReserves < pool.curve.virtualTokenReserves
    requires net == CurveNet(pool.curve, pool.curve.realTokenReserves)
    ensures QuoteForTokens(pool, amount) == Success(total)
            <==> TotalsPast(pool, amount - pool.curve.realTokenReserves, rates, net, total)
  {
  }

  lemma PastTotalsExactly(pool: PumpV3Pool, amount: u64, net: nat, total: u64)
    requires Rated(pool.curve) && pool.curve.realTokenReserves < amount
    requires Prices(pool.curve, pool.curve.realTokenReserves, net) && 0 < net
    ensures TotalsPast(pool, amount - pool.curve.realTokenReserves,
                       Rates(pool.curve.protocolFeeBps, CreatorBps(pool.curve)), net, total)
            <==> PricesAs(pool, amount, net, total)
  {
    var past := amount - pool.curve.realTokenReserves;
    PoolPriceExactly(pool, past, net);
    if PoolCovers(pool, past, net) {
      TotalsArePayable(pool.curve, net, PoolPrice(pool, past, net), total);
    }
  }

  lemma PastCurveExactly(pool: PumpV3Pool, amount: u64, rates: Rates, net: nat, total: u64)
    requires rates == Rates(pool.curve.protocolFeeBps, CreatorBps(pool.curve))
    requires Rated(pool.curve) && V3Rates(pool) == Success(rates) && 0 < amount && 0 < pool.curve.virtualSolReserves
    requires pool.curve.realTokenReserves < amount && Prices(pool.curve, pool.curve.realTokenReserves, net)
    requires net == CurveNet(pool.curve, pool.curve.realTokenReserves) && 0 < net
    ensures QuoteForTokens(pool, amount) == Success(total) <==> PricesAs(pool, amount, net, total)
  {
    PastCurveTotals(pool, amount, rates, net, total);
    PastTotalsExactly(pool, amount, net, total);
  }

  /** Without a curve that has the tokens to sell there is no price. */
  lemma PricedIsTradable(pool: PumpV3Pool, amount: u64)
    requires QuoteForTokens(pool, amount).Success?
    ensures Tradable(pool) && 0 < amount && 0 < pool.curve.virtualSolReserves
    ensures Min(amount, pool.curve.realTokenReserves) < pool.curve.virtualTokenReserves
  {
    RatesExactly(pool, Rates(pool.curve.protocolFeeBps, CreatorBps(pool.curve)));
  }

  /** A target is priced exactly when the pool's fields say so. */
  lemma QuoteForTokensExactly(pool: PumpV3Pool, amount: u64, total: u64)
    ensures QuoteForTokens(pool, amount) == Success(total)
            <==> && Tradable(pool) && 0 < amount && 0 < pool.curve.virtualSolReserves
                 && exists net: nat :: PricesAs(pool, amount, net, total)
  {
    var tokens := Min(amount, pool.curve.realTokenReserves);
    var rates := Rates(pool.curve.protocolFeeBps, CreatorBps(pool.curve));
    RatesExactly(pool, rates);
    if QuoteForTokens(pool, amount).Success? {
      PricedIsTradable(pool, amount);
    }
    forall net: nat | tokens < pool.curve.virtualTokenReserves
      ensures Prices(pool.curve, tokens, net) <==> net == CurveNet(pool.curve, tokens)
    {
      PricesExactly(pool.curve, tokens, net);
    }
    if && Tradable(pool) && 0 < amount && 0 < pool.curve.virtualSolReserves
       && tokens < pool.curve.virtualTokenReserves {
      if amount <= pool.curve.realTokenReserves {
        OnCurveExactly(pool, amount, total);
      } else {
        PastCurveExactly(pool, amount, rates, CurveNet(pool.curve, tokens), total);
      }
    }
  }
}
