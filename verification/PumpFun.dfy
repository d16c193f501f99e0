/** Pump bonding-curve quotes: the V1 exact-input quote (crates/sdk/src/quote.rs:675-709) and the V3
    quotes that may cross graduation (crates/sdk/src/pumpfun_v3.rs:94-206, 513-528). */
module PumpFun {
  import opened Wrappers
  import opened Arith
  import opened Curve
  import opened PumpFees

  datatype PumpCurve = PumpCurve(
    virtualTokenReserves: u64,
    virtualSolReserves: u64,
    realTokenReserves: u64,
    protocolFeeBps: u64,
    creatorFeeBps: u64,
    feeRatesKnown: bool,
    hasCreator: bool,
    isCashbackCoin: bool)

  /** `identitiesValid` stands for the account identity checks of `validate`. */
  datatype PumpV3Pool = PumpV3Pool(
    curve: PumpCurve,
    complete: bool,
    identitiesValid: bool,
    quoteIsWsol: bool,
    supportsGraduation: bool,
    realQuoteReserves: u64,
    curveBaseTokenBalance: u64,
    poolMigrationFee: u64,
    mayhemMode: bool)

  datatype PumpError =
    | FeeRatesMissing
    | InvalidFeeRates
    | InvalidPool
    | InvalidInput
    | FeesNotCovered
    | EmptyReserves
    | BudgetTooSmall
    | GraduationDisabled
    | MayhemGraduation
    | ReserveExhausted
    | EmptyPoolToBe
    | PoolToBeOverflow
    | ExceedsU64
    | RoundsToZero
    | ArithmeticOverflow

  datatype Rates = Rates(protocol: u64, creator: u64)

  function V1Rates(curve: PumpCurve): Result<Rates, PumpError> {
    var creator := if curve.hasCreator then curve.creatorFeeBps else 0;
    if !curve.feeRatesKnown then Failure(FeeRatesMissing)
    else if curve.protocolFeeBps + creator >= BPS then Failure(InvalidFeeRates)
    else Success(Rates(curve.protocolFeeBps, creator))
  }

  function V3Rates(pool: PumpV3Pool): Result<Rates, PumpError> {
    if pool.complete || pool.curve.isCashbackCoin then Failure(InvalidPool)
    else if !pool.curve.feeRatesKnown then Failure(FeeRatesMissing)
    else if !pool.identitiesValid then Failure(InvalidPool)
    else V1Rates(pool.curve)
  }

  function PositiveU64(value: nat): Result<u64, PumpError> {
    if value > U64_MAX then Failure(ExceedsU64)
    else if value == 0 then Failure(RoundsToZero)
    else Success(value)
  }

  function WithRates(x: nat, rates: Rates): nat {
    WithFees(x, rates.protocol, rates.creator, 0)
  }

  /** The source's `net_quote`; its checked subtraction saturates at zero only if fees exceeded
      the guess, which `NetQuoteIsLargest` excludes. */
  function NetQuote(budget: nat, rates: Rates): Result<nat, PumpError> {
    var guess := Guess(budget, rates.protocol, rates.creator, 0);
    var excess := Max(0, WithRates(guess, rates) - budget);
    if excess > guess then Failure(FeesNotCovered) else Success(guess - excess)
  }

  /** The largest net input whose fees the budget covers. */
  function Net(budget: nat, rates: Rates): nat {
    Corrected(budget, rates.protocol, rates.creator, 0)
  }

  lemma NetQuoteIsLargest(budget: nat, rates: Rates)
    ensures NetQuote(budget, rates) == Success(Net(budget, rates))
    ensures forall x: nat :: WithRates(x, rates) <= budget <==> x <= Net(budget, rates)
    ensures Net(budget, rates) <= budget
  {
    var p, c := rates.protocol, rates.creator;
    GuessBounds(budget, p, c, 0);
    TwoFeeCorrectionIsLargest(budget, p, c);
    assert forall x: nat :: Affordable(x, budget, p, c, 0) <==> WithRates(x, rates) <= budget;
    var guess := Guess(budget, p, c, 0);
    if guess == 0 {
      assert WithRates(0, rates) == 0;
    }
    WithFeesGrows(0, Net(budget, rates), p, c, 0);
  }

  lemma NetAffords(budget: nat, rates: Rates, x: nat)
    ensures WithRates(x, rates) <= budget <==> x <= Net(budget, rates)
  {
    NetQuoteIsLargest(budget, rates);
  }

  lemma NetWithinBudget(budget: nat, rates: Rates)
    ensures NetQuote(budget, rates) == Success(Net(budget, rates))
    ensures WithRates(Net(budget, rates), rates) <= budget
    ensures Net(budget, rates) <= Guess(budget, rates.protocol, rates.creator, 0) <= budget
  {
    NetQuoteIsLargest(budget, rates);
    GuessWithinBudget(budget, rates.protocol, rates.creator, 0);
  }

  // ----- V1 -----

  /** What the V1 quote promises: one unit less than the largest affordable net enters the curve,
      and the tokens are capped by what the curve really holds. */
  function V1Quote(curve: PumpCurve, quoteIn: u64): Result<u64, PumpError> {
    var rates :- V1Rates(curve);
    if quoteIn == 0 || curve.virtualTokenReserves == 0 || curve.virtualSolReserves == 0 then Failure(InvalidInput)
    else if Net(quoteIn, rates) == 0 then Failure(BudgetTooSmall)
    else
      var tokens := CurveOut(curve.virtualSolReserves, curve.virtualTokenReserves, Net(quoteIn, rates) - 1);
      if Min(tokens, curve.realTokenReserves) == 0 then Failure(RoundsToZero)
      else Success(Min(tokens, curve.realTokenReserves))
  }

  /** The split fees of the guess are the plain ones, so correcting by them gives the net. */
  lemma V1NetFits(quoteIn: u64, rates: Rates)
    ensures var guess := Guess(quoteIn, rates.protocol, rates.creator, 0);
            && guess <= quoteIn
            && guess + ComputeFeeBps(guess, rates.protocol) + ComputeFeeBps(guess, rates.creator)
               == WithRates(guess, rates)
            && WithRates(guess, rates) - quoteIn <= guess
            && Net(quoteIn, rates) == guess - Max(0, WithRates(guess, rates) - quoteIn)
  {
    NetWithinBudget(quoteIn, rates);
    var guess := Guess(quoteIn, rates.protocol, rates.creator, 0);
    SplitFeeOfU64(guess, rates.protocol);
    SplitFeeOfU64(guess, rates.creator);
  }

  /** The source's `pumpfun_buy_token_out`, correcting the net in place with split fees. */
  method V1BuyTokenOut(curve: PumpCurve, quoteIn: u64) returns (r: Result<u64, PumpError>)
    ensures r == V1Quote(curve, quoteIn)
  {
    var rates :- V1Rates(curve);
    if quoteIn == 0 || curve.virtualTokenReserves == 0 || curve.virtualSolReserves == 0 {
      return Failure(InvalidInput);
    }
    V1NetFits(quoteIn, rates);
    var net := Guess(quoteIn, rates.protocol, rates.creator, 0);
    var total := net + ComputeFeeBps(net, rates.protocol) + ComputeFeeBps(net, rates.creator);
    if total > quoteIn {
      if net < total - quoteIn {
        return Failure(FeesNotCovered);
      }
      net := net - (total - quoteIn);
    }
    if net == 0 {
      return Failure(BudgetTooSmall);
    }
    var tokens := CurveOut(curve.virtualSolReserves, curve.virtualTokenReserves, net - 1);
    tokens := Min(tokens, curve.realTokenReserves);
    if tokens == 0 {
      return Failure(RoundsToZero);
    }
    return Success(tokens);
  }

  // ----- V3, exact input -----

  /** The curve's answer to a budget, before graduation is considered. */
  function CurveTokens(curve: PumpCurve, net: nat): nat
    requires 0 < curve.virtualSolReserves && 0 < net
  {
    CurveOut(curve.virtualSolReserves, curve.virtualTokenReserves, net - 1)
  }

  /** The official curve exact-output net: the floor plus one, even when it divides. */
  function CurveNet(curve: PumpCurve, tokens: nat): nat
    requires tokens < curve.virtualTokenReserves
  {
    FloorBounds(tokens * curve.virtualSolReserves, curve.virtualTokenReserves - tokens);
    tokens * curve.virtualSolReserves / (curve.virtualTokenReserves - tokens) + 1
  }

  /** The leg bought from the pool the curve migrates into. */
  function PoolLeg(pool: PumpV3Pool, left: nat, curveNet: nat, rates: Rates): Result<u64, PumpError> {
    var remaining := pool.curve.realTokenReserves;
    var poolBase := pool.curveBaseTokenBalance - remaining;
    var raised := pool.realQuoteReserves + curveNet;
    var poolQuote := if pool.quoteIsWsol then raised - pool.poolMigrationFee else raised;
    if poolBase <= 0 then Failure(EmptyPoolToBe)
    else if raised > U64_MAX then Failure(PoolToBeOverflow)
    else if poolQuote <= 0 then Failure(EmptyPoolToBe)
    else
      var net :- NetQuote(left, rates);
      if net == 0 then Failure(BudgetTooSmall)
      else PositiveU64(remaining + CurveOut(poolQuote, poolBase, net - 1))
  }

  /** The budget left after completing the curve; the source falls back to zero when it is short. */
  function LeftAfterCurve(curve: PumpCurve, budget: nat, rates: Rates): nat
    requires curve.realTokenReserves < curve.virtualTokenReserves
  {
    Max(0, budget - WithRates(CurveNet(curve, curve.realTokenReserves), rates))
  }

  function Cross(pool: PumpV3Pool, budget: u64, rates: Rates): Result<u64, PumpError> {
    var curve := pool.curve;
    if curve.virtualTokenReserves <= curve.realTokenReserves then Failure(ReserveExhausted)
    else
      var left := LeftAfterCurve(curve, budget, rates);
      if Guess(left, rates.protocol, rates.creator, 0) < 2 then PositiveU64(curve.realTokenReserves)
      else PoolLeg(pool, left, CurveNet(curve, curve.realTokenReserves), rates)
  }

  /** The source's `buy_quote`. */
  function BuyQuote(pool: PumpV3Pool, budget: u64): Result<u64, PumpError> {
    var rates :- V3Rates(pool);
    var net :- NetQuote(budget, rates);
    if pool.curve.virtualTokenReserves == 0 || pool.curve.virtualSolReserves == 0 then Failure(EmptyReserves)
    else if net <= 1 then Failure(BudgetTooSmall)
    else
      var tokens := CurveTokens(pool.curve, net);
      if tokens <= pool.curve.realTokenReserves then PositiveU64(tokens)
      else if !pool.supportsGraduation then Failure(GraduationDisabled)
      else if pool.mayhemMode then Failure(MayhemGraduation)
      else Cross(pool, budget, rates)
  }

  /** The quote is well formed and over-buys what the curve has left. */
  predicate Crosses(pool: PumpV3Pool, budget: u64) {
    var rates := V3Rates(pool);
    && rates.Success?
    && 0 < pool.curve.virtualSolReserves
    && 1 < Net(budget, rates.value)
    && pool.curve.realTokenReserves < CurveTokens(pool.curve, Net(budget, rates.value))
  }

  /** The floor-plus-one net buys at most the target, and any more buys at least it. */
  lemma CurveNetBrackets(curve: PumpCurve, tokens: nat, net: nat)
    requires 0 < curve.virtualSolReserves && tokens < curve.virtualTokenReserves && 0 < net
    ensures net <= CurveNet(curve, tokens) ==> CurveTokens(curve, net) <= tokens
    ensures CurveNet(curve, tokens) < net ==> tokens <= CurveTokens(curve, net)
    ensures tokens < CurveTokens(curve, net) ==> CurveNet(curve, tokens) < net
  {
    FloorPriceBrackets(curve.virtualSolReserves, curve.virtualTokenReserves, tokens, net - 1);
  }

  /** Crossing graduation conserves the budget: the curve is completable, its cost with both fees
      is covered with net to spare, and the pool leg is affordable out of what is left. */
  lemma CrossingConservesBudget(pool: PumpV3Pool, budget: u64)
    requires Crosses(pool, budget)
    ensures pool.curve.realTokenReserves < pool.curve.virtualTokenReserves
    ensures var rates := V3Rates(pool).value;
            var curveNet := CurveNet(pool.curve, pool.curve.realTokenReserves);
            var left := LeftAfterCurve(pool.curve, budget, rates);
            && curveNet < Net(budget, rates)
            && WithRates(curveNet, rates) < budget
            && left == budget - WithRates(curveNet, rates)
            && WithRates(curveNet, rates) + WithRates(Net(left, rates), rates) <= budget
            && (2 <= Guess(left, rates.protocol, rates.creator, 0) ==> 0 < Net(left, rates))
  {
    var rates := V3Rates(pool).value;
    var remaining := pool.curve.realTokenReserves;
    var net := Net(budget, rates);
    var p, c := rates.protocol, rates.creator;
    NetWithinBudget(budget, rates);
    CurveOutBelowReserve(pool.curve.virtualSolReserves, pool.curve.virtualTokenReserves, net - 1);
    CurveNetBrackets(pool.curve, remaining, net);
    WithFeesGrows(CurveNet(pool.curve, remaining), net, p, c, 0);
    var left := LeftAfterCurve(pool.curve, budget, rates);
    NetWithinBudget(left, rates);
    GuessBounds(left, p, c, 0);
  }
}
