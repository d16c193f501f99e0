/** The repository's own quote vectors, derived from the model, so that the premises of the general
    results are met by real pools. */
module GoldenVectors {
  import opened Wrappers
  import opened Arith
  import opened Curve
  import opened TransferFee
  import LaunchLab
  import opened PumpFees
  import opened PumpFun
  import opened PumpV3
  import Cpmm
  import CpmmFields
  import LaunchLabFields
  import PumpFields
  import PumpSwap

  // ----- LaunchLab -----

  /** Values of one clamped buy without any fee. */
  lemma FeeFreeClamp(pool: LaunchLab.LaunchLabPool, amountIn: u64, x: nat, y: nat, remaining: nat)
    requires pool.curveType == 0 && pool.feeRatesKnown && 0 < amountIn
    requires pool.tradeFeeRate == 0 && pool.platformFeeRate == 0 && pool.creatorFeeRate == 0
    requires pool.baseTransferFee.basisPoints == 0 && pool.quoteTransferFee.basisPoints == 0
    requires x == pool.virtualQuote + pool.realQuote && y == pool.virtualBase - pool.realBase
    requires 0 < x && x + amountIn <= U128_MAX && amountIn * y <= U128_MAX
    requires 0 < pool.totalBaseSell && pool.realBase <= pool.totalBaseSell
    requires remaining == pool.totalBaseSell - pool.realBase && remaining < y && remaining <= U64_MAX
    requires remaining < CurveOut(x, y, amountIn)
    ensures LaunchLab.EntersClamp(pool, amountIn, 0)
    ensures LaunchLab.Buy(pool, amountIn, 0).Success?
    ensures LaunchLab.Buy(pool, amountIn, 0).value.amountOut == remaining
    ensures LaunchLab.Buy(pool, amountIn, 0).value.amountIn == CurveIn(x, y, remaining)
  {
    CeilGalois(0, LaunchLab.FEE_DENOM, 0);
    assert LaunchLab.TotalFeeRate(pool, 0) == Success(0);
    assert NetOfFee(amountIn, 0, LaunchLab.FEE_DENOM) == amountIn;
    CurveOutBelowReserve(x, y, amountIn);
    assert LaunchLab.Quotes(pool, amountIn, 0, CurveOut(x, y, amountIn));
    LaunchLab.ClampIsTight(pool, amountIn, 0);
    LaunchLab.GraduationInputFits(pool, amountIn, 0, remaining, CurveOut(x, y, amountIn));
    CeilGalois(CurveIn(x, y, remaining) * LaunchLab.FEE_DENOM, LaunchLab.FEE_DENOM, CurveIn(x, y, remaining));
    CeilGalois(CurveIn(x, y, remaining) * LaunchLab.FEE_DENOM, LaunchLab.FEE_DENOM, CurveIn(x, y, remaining) - 1);
  }

  /** crates/sdk/src/offline_tests.rs:3190-3199: 990 is clamped to 100 for a supply of 100. */
  lemma ClampVector(pool: LaunchLab.LaunchLabPool, amountIn: u64)
    requires pool.virtualBase == 1_100 && pool.virtualQuote == 1_000 && pool.realBase == 0 && pool.realQuote == 0
    requires pool.totalBaseSell == 100 && pool.curveType == 0 && pool.feeRatesKnown
    requires pool.tradeFeeRate == 0 && pool.platformFeeRate == 0 && pool.creatorFeeRate == 0
    requires pool.baseTransferFee.basisPoints == 0 && pool.quoteTransferFee.basisPoints == 0 && amountIn == 990
    ensures LaunchLab.EntersClamp(pool, amountIn, 0)
    ensures LaunchLab.Buy(pool, amountIn, 0) == Success(LaunchLab.BuyQuote(100, 100))
  {
    CurveOutReaches(1_000, 1_100, amountIn, 101);
    CeilGalois(100 * 1_000, 1_000, 100);
    CeilGalois(100 * 1_000, 1_000, 99);
    FeeFreeClamp(pool, amountIn, 1_000, 1_100, 100);
  }

  /** On a sold-out curve the same buy is quoted a zero input for nothing, and that cannot be quoted again. */
  lemma SoldOutVector(pool: LaunchLab.LaunchLabPool, amountIn: u64)
    requires pool.virtualBase == 1_100 && pool.virtualQuote == 1_000 && pool.realBase == 100 && pool.realQuote == 100
    requires pool.totalBaseSell == 100 && pool.curveType == 0 && pool.feeRatesKnown
    requires pool.tradeFeeRate == 0 && pool.platformFeeRate == 0 && pool.creatorFeeRate == 0
    requires pool.baseTransferFee.basisPoints == 0 && pool.quoteTransferFee.basisPoints == 0 && amountIn == 990
    ensures LaunchLab.EntersClamp(pool, amountIn, 0) && pool.realBase == pool.totalBaseSell
    ensures LaunchLab.Buy(pool, amountIn, 0) == Success(LaunchLab.BuyQuote(0, 0))
    ensures LaunchLab.Buy(pool, 0, 0) == Failure(LaunchLab.ZeroInput)
  {
    CurveOutReaches(1_100, 1_000, amountIn, 1);
    CeilGalois(0, 1_000, 0);
    FeeFreeClamp(pool, amountIn, 1_100, 1_000, 0);
  }

  // ----- Pump V3 -----

  /** Without fees the net, the guess and the cost are the amount itself. */
  lemma FeeFree(x: u64, rates: Rates)
    requires rates.protocol == 0 && rates.creator == 0
    ensures NetQuote(x, rates) == Success(x) && Net(x, rates) == x
    ensures Guess(x, rates.protocol, rates.creator, 0) == x
    ensures WithRates(x, rates) == x
  {
    NoFees(x, rates);
    NetWithinBudget(x, rates);
  }

  lemma PoolLegIsOut(pool: PumpV3Pool, left: nat, curveNet: nat, rates: Rates, net: nat, quote: nat)
    requires NetQuote(left, rates) == Success(net) && 0 < net
    requires 0 < PoolBase(pool) && pool.realQuoteReserves + curveNet <= U64_MAX
    requires quote == PoolQuote(pool, curveNet) && 0 < quote
    requires 0 < pool.curve.realTokenReserves + CurveOut(quote, PoolBase(pool), net - 1) <= U64_MAX
    ensures PoolLeg(pool, left, curveNet, rates)
            == Success(pool.curve.realTokenReserves + CurveOut(quote, PoolBase(pool), net - 1))
  {
  }

  lemma CrossIsLeg(pool: PumpV3Pool, budget: u64, rates: Rates, net: nat, left: nat, curveNet: nat)
    requires V3Rates(pool) == Success(rates) && 0 < pool.curve.virtualSolReserves
    requires pool.supportsGraduation && !pool.mayhemMode
    requires pool.curve.realTokenReserves < pool.curve.virtualTokenReserves
    requires NetQuote(budget, rates) == Success(net) && Net(budget, rates) == net && 1 < net
    requires pool.curve.realTokenReserves < CurveTokens(pool.curve, net)
    requires curveNet == CurveNet(pool.curve, pool.curve.realTokenReserves)
    requires WithRates(curveNet, rates) + left == budget && 2 <= Guess(left, rates.protocol, rates.creator, 0)
    ensures Crosses(pool, budget)
    ensures BuyQuote(pool, budget) == PoolLeg(pool, left, curveNet, rates)
  {
  }

  lemma FeeFreeCrosses(pool: PumpV3Pool, budget: u64, rates: Rates, curveNet: u64, left: u64)
    requires V3Rates(pool) == Success(rates) && rates.protocol == 0 && rates.creator == 0
    requires 0 < pool.curve.virtualSolReserves && pool.supportsGraduation && !pool.mayhemMode
    requires pool.curve.realTokenReserves < pool.curve.virtualTokenReserves && 1 < budget
    requires pool.curve.realTokenReserves < CurveTokens(pool.curve, budget)
    requires curveNet == CurveNet(pool.curve, pool.curve.realTokenReserves) && curveNet + left == budget && 2 <= left
    ensures Crosses(pool, budget)
    ensures BuyQuote(pool, budget) == PoolLeg(pool, left, curveNet, rates)
  {
    assert WithRates(curveNet, rates) == curveNet by {
      FeeFree(curveNet, rates);
    }
    assert Guess(left, rates.protocol, rates.creator, 0) == left by {
      FeeFree(left, rates);
    }
    assert NetQuote(budget, rates) == Success(budget) && Net(budget, rates) == budget by {
      FeeFree(budget, rates);
    }
    CrossIsLeg(pool, budget, rates, budget, left, curveNet);
  }

  lemma FeeFreePoolLeg(pool: PumpV3Pool, left: u64, curveNet: u64, rates: Rates, quote: nat)
    requires rates.protocol == 0 && rates.creator == 0 && 0 < left
    requires 0 < PoolBase(pool) && pool.realQuoteReserves + curveNet <= U64_MAX
    requires quote == PoolQuote(pool, curveNet) && 0 < quote
    requires 0 < pool.curve.realTokenReserves + CurveOut(quote, PoolBase(pool), left - 1) <= U64_MAX
    ensures PoolLeg(pool, left, curveNet, rates)
            == Success(pool.curve.realTokenReserves + CurveOut(quote, PoolBase(pool), left - 1))
  {
    assert NetQuote(left, rates) == Success(left) by {
      FeeFree(left, rates);
    }
    PoolLegIsOut(pool, left, curveNet, rates, left, quote);
  }

  /** Without fees, a crossing buys the supply and spends the rest on the pool-to-be. */
  lemma FeeFreeCross(pool: PumpV3Pool, budget: u64, rates: Rates, curveNet: u64, quote: nat, bought: nat)
    requires V3Rates(pool) == Success(rates) && rates.protocol == 0 && rates.creator == 0
    requires 0 < pool.curve.virtualSolReserves && pool.supportsGraduation && !pool.mayhemMode
    requires pool.curve.realTokenReserves < pool.curve.virtualTokenReserves && 1 < budget
    requires pool.curve.realTokenReserves < CurveTokens(pool.curve, budget)
    requires curveNet == CurveNet(pool.curve, pool.curve.realTokenReserves) && curveNet + 2 <= budget
    requires 0 < PoolBase(pool) && pool.realQuoteReserves + curveNet <= U64_MAX
    requires quote == PoolQuote(pool, curveNet) && 0 < quote
    requires bought == CurveOut(quote, PoolBase(pool), budget - curveNet - 1)
    requires 0 < pool.curve.realTokenReserves + bought <= U64_MAX
    ensures Crosses(pool, budget)
    ensures BuyQuote(pool, budget) == Success(pool.curve.realTokenReserves + bought)
  {
    FeeFreeCrosses(pool, budget, rates, curveNet, budget - curveNet);
    FeeFreePoolLeg(pool, budget - curveNet, curveNet, rates, quote);
  }

  /** The pool of crates/sdk/src/pumpfun_v3.rs:533-566. */
  function TestPool(quoteIsWsol: bool): (pool: PumpV3Pool)
    ensures V3Rates(pool) == Success(Rates(0, 0))
  {
    PumpV3Pool(PumpCurve(1_000_000, 100_000, 100_000, 0, 0, true, true, false), false, true, quoteIsWsol, true, 20_000,
               300_000, 1_000, false)
  }

  lemma TestCurve(curve: PumpCurve, budget: u64)
    requires curve == TestPool(true).curve && 20_000 <= budget
    ensures curve.realTokenReserves < CurveTokens(curve, budget)
    ensures CurveNet(curve, curve.realTokenReserves) == 11_112
  {
    CurveOutReaches(curve.virtualSolReserves, curve.virtualTokenReserves, budget - 1, 100_001);
  }

  /** crates/sdk/src/pumpfun_v3.rs:568-584: a budget of 20000 crosses, over either quote mint. */
  lemma CrossingVector(pool: PumpV3Pool, budget: u64)
    requires budget == 20_000 && pool == TestPool(pool.quoteIsWsol)
    ensures Crosses(pool, budget)
    ensures BuyQuote(pool, budget) == Success(if pool.quoteIsWsol then 145_575 else 144_436)
  {
    TestCurve(pool.curve, budget);
    var quote := if pool.quoteIsWsol then 30_112 else 31_112;
    var bought := if pool.quoteIsWsol then 45_575 else 44_436;
    CurveOutReaches(quote, 200_000, 8_887, bought);
    CurveOutReaches(quote, 200_000, 8_887, bought + 1);
    FeeFreeCross(pool, budget, Rates(0, 0), 11_112, quote, bought);
  }

  lemma TestLeg(pool: PumpV3Pool, past: nat, curveNet: nat)
    requires pool == TestPool(true) && past == 50_000 && curveNet == 11_112
    ensures PoolLegNet(pool, past, curveNet) == Success(10_038)
  {
    var quote := PoolQuote(pool, curveNet);
    assert quote == 30_112;
    CeilGalois(past * quote, 150_000, 10_038);
    CeilGalois(past * quote, 150_000, 10_037);
  }

  /** crates/sdk/src/pumpfun_v3.rs:599-603: the price of 150000 tokens is 11112 + 10038. */
  lemma PriceVector(pool: PumpV3Pool, amount: u64)
    requires amount == 150_000 && pool == TestPool(true)
    ensures QuoteForTokens(pool, amount) == Success(21_150)
  {
    var curveNet, legNet := 11_112, 10_038;
    TestCurve(pool.curve, 20_000);
    TestLeg(pool, amount - pool.curve.realTokenReserves, curveNet);
    NoFees(curveNet, Rates(0, 0));
    NoFees(legNet, Rates(0, 0));
    PriceIsSum(pool, amount, Rates(0, 0), curveNet, legNet, curveNet, legNet);
  }

  /** Spending that price buys two tokens less. */
  lemma UnderdeliveryVector(pool: PumpV3Pool, amount: u64, budget: u64)
    requires amount == 150_000 && budget == 21_150 && pool == TestPool(true)
    ensures QuoteForTokens(pool, amount) == Success(budget)
    ensures Crosses(pool, budget) && BuyQuote(pool, budget) == Success(149_998)
  {
    PriceVector(pool, amount);
    TestCurve(pool.curve, budget);
    CurveOutReaches(30_112, 200_000, 10_037, 49_998);
    CurveOutReaches(30_112, 200_000, 10_037, 49_999);
    FeeFreeCross(pool, budget, Rates(0, 0), 11_112, 30_112, 49_998);
  }

  // ----- fees -----

  /** crates/sdk/src/pumpfun_v3.rs:586-591: with 95 and 5 basis points a budget of 10000 nets 9900. */
  lemma RatedVector(pool: PumpV3Pool, budget: u64)
    requires budget == 10_000 && pool == TestPool(true).(curve := pool.curve)
    requires pool.curve == TestPool(true).curve.(protocolFeeBps := 95, creatorFeeBps := 5)
    ensures V1Quote(pool.curve, budget) == Success(90_073)
    ensures BuyQuote(pool, budget) == Success(90_073)
  {
    var curve, net, tokens := pool.curve, 9_900, 90_073;
    assert PumpFields.LargestNet(curve, budget, net) by {
      RatedNet(curve, budget, net);
    }
    assert PumpFields.Sells(curve, net, tokens);
    PumpFields.V1Exactly(curve, budget, tokens);
    PumpFields.V3Exactly(pool, budget, tokens);
  }

  lemma RatedNet(curve: PumpCurve, budget: u64, net: nat)
    requires curve.protocolFeeBps == 95 && curve.creatorFeeBps == 5 && curve.hasCreator
    requires budget == 10_000 && net == 9_900
    ensures PumpFields.LargestNet(curve, budget, net)
  {
    CeilGalois(net * 95, 10_000, 95);
    CeilGalois(net * 95, 10_000, 94);
    CeilGalois(net * 5, 10_000, 5);
    CeilGalois(net * 5, 10_000, 4);
    PumpFields.CostExactly(curve, net);
    CorrectedOfWithFees(net, 95, 5);
    PumpFields.LargestNetExactly(curve, budget, net);
  }

  /** crates/sdk/src/quote.rs:456-482: the buy of the reference integer arithmetic. */
  lemma PumpSwapVector(pool: PumpSwap.PumpSwapPool, quoteIn: u64)
    requires pool == PumpSwap.PumpSwapPool(800_000_000_000_000, 100_000_000_000, 5_000_000_000, 20, 5, 30)
    requires quoteIn == 1_500_000_000
    ensures PumpSwap.BuyQuote(pool, quoteIn) == Success(11_206_836_149_304)
  {
    var guess, net := 1_491_795_126, 1_491_795_125;
    PumpSwapCost(pool, guess);
    assert PumpSwap.Corrects(pool, quoteIn, guess, net);
    assert PumpSwap.Sells(pool, net, 11_206_836_149_304);
    PumpSwap.BuyExactly(pool, quoteIn, 11_206_836_149_304);
  }

  lemma PumpSwapCost(pool: PumpSwap.PumpSwapPool, guess: nat)
    requires pool.lpFeeBps == 20 && pool.protocolFeeBps == 5 && pool.creatorFeeBps == 30 && guess == 1_491_795_126
    ensures PumpSwap.Cost(pool, guess) == 1_500_000_001
  {
    CeilGalois(guess * 20, 10_000, 2_983_591);
    CeilGalois(guess * 20, 10_000, 2_983_590);
    CeilGalois(guess * 5, 10_000, 745_898);
    CeilGalois(guess * 5, 10_000, 745_897);
    CeilGalois(guess * 30, 10_000, 4_475_386);
    CeilGalois(guess * 30, 10_000, 4_475_385);
  }

  lemma CpmmFollows(s: Cpmm.Swap, amountIn: u64, x: u64, y: u64, none: TokenTransferFee, inputRate: nat,
                    outputRate: nat)
    requires amountIn == s.credit == 101 && s.curveIn == 99 && s.curveOut == s.debit == s.received == 197
    requires x == 1_000_000 && y == 2_000_000 && none.basisPoints == 0 && inputRate == 12_500 && outputRate == 0
    ensures CpmmFields.Follows(s, amountIn, x, y, none, none, inputRate, outputRate)
  {
    CeilGalois(s.credit * inputRate, 1_000_000, 2);
    CeilGalois(s.credit * inputRate, 1_000_000, 1);
    CeilGalois(0, 1_000_000, 0);
  }

  predicate CombinedFees(pool: Cpmm.CpmmPool) {
    && pool.baseReserve == 1_000_000 && pool.quoteReserve == 2_000_000 && pool.feeRatesKnown
    && pool.tradeFeeRate == 2_500 && pool.creatorFeeRate == 10_000
    && pool.creatorFeeOn == 0 && pool.enableCreatorFee
    && pool.baseTransferFee == pool.quoteTransferFee && pool.baseTransferFee.basisPoints == 0
  }

  lemma CombinedSwap(pool: Cpmm.CpmmPool, amountIn: u64, s: Cpmm.Swap)
    requires CombinedFees(pool)
    requires amountIn == s.credit == 101 && s.curveIn == 99 && s.curveOut == s.debit == s.received == 197
    ensures CpmmFields.BaseIn(pool, amountIn, s)
  {
    CpmmFollows(s, amountIn, pool.baseReserve, pool.quoteReserve, pool.baseTransferFee, 12_500, 0);
  }

  /** crates/sdk/src/quote.rs:330-357: trade and creator fee on the input round up together. */
  lemma CpmmVector(pool: Cpmm.CpmmPool, amountIn: u64)
    requires CombinedFees(pool) && amountIn == 101
    ensures Cpmm.Out(pool, amountIn, true) == Success(197)
  {
    var s: Cpmm.Swap :| s == Cpmm.Swap(101, 99, 197, 197, 197);
    CombinedSwap(pool, amountIn, s);
    CpmmFields.SwapIsQuoted(pool, amountIn, s);
  }

  /** A base mint's transfer fee comes off what a LaunchLab buy delivers. */
  lemma BuyFeeVector(pool: LaunchLab.LaunchLabPool, amountIn: u64)
    requires pool.virtualBase == 1_100 && pool.virtualQuote == 1_000 && pool.realBase == 0 && pool.realQuote == 0
    requires pool.totalBaseSell == 0 && pool.curveType == 0 && pool.feeRatesKnown && amountIn == 100
    requires pool.tradeFeeRate == 0 && pool.platformFeeRate == 0 && pool.creatorFeeRate == 0
    requires pool.baseTransferFee == TokenTransferFee(100, 1_000) && pool.quoteTransferFee == TokenTransferFee(0, 0)
    ensures LaunchLab.Buy(pool, amountIn, 0) == Success(LaunchLab.BuyQuote(100, 99))
  {
    CeilGalois(0, 1_000_000, 0);
    ChargesExactly(pool.baseTransferFee, 100, 1);
    assert LaunchLabFields.CurveSells(pool, amountIn, 0, 100, 100);
    LaunchLabFields.BuySettles(pool, amountIn, 0, 100, 100, LaunchLab.BuyQuote(100, 99));
  }

  /** A LaunchLab sell is priced against the base that is still unsold. */
  lemma SellVector(pool: LaunchLab.LaunchLabPool, baseIn: u64)
    requires pool.virtualBase == 1_100 && pool.virtualQuote == 1_000 && pool.realBase == 100 && pool.realQuote == 100
    requires pool.curveType == 0 && pool.feeRatesKnown && baseIn == 50
    requires pool.tradeFeeRate == 0 && pool.platformFeeRate == 0 && pool.creatorFeeRate == 0
    requires pool.baseTransferFee == TokenTransferFee(0, 0) && pool.quoteTransferFee == TokenTransferFee(0, 0)
    ensures LaunchLab.Sell(pool, baseIn) == Success(52)
  {
    CeilGalois(0, 1_000_000, 0);
    assert LaunchLabFields.CurveBuysBack(pool, baseIn, 52);
    assert LaunchLabFields.Pays(pool, 52, 52);
    LaunchLabFields.SellExactly(pool, baseIn, 52);
  }
}
