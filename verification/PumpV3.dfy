/** What the Pump V3 quotes promise about each other, about V1 and about the budget
    (crates/sdk/src/pumpfun_v3.rs:110-206). */
module PumpV3 {
  import opened Wrappers
  import opened Arith
  import opened Curve
  import opened PumpFees
  import opened PumpFun

  /** A quote that does not cross is the curve's own answer. */
  lemma CurveQuote(pool: PumpV3Pool, budget: u64)
    requires BuyQuote(pool, budget).Success? && !Crosses(pool, budget)
    ensures var rates := V3Rates(pool).value;
            && 1 < Net(budget, rates) && 0 < pool.curve.virtualSolReserves
            && BuyQuote(pool, budget).value == CurveTokens(pool.curve, Net(budget, rates))
            && BuyQuote(pool, budget).value <= pool.curve.realTokenReserves
  {
    NetWithinBudget(budget, V3Rates(pool).value);
  }

  /** A quote that crosses is the remaining supply, plus what the pool-to-be sells for the net of
      the budget left over when that net guess is at least two. */
  lemma CrossQuote(pool: PumpV3Pool, budget: u64)
    requires BuyQuote(pool, budget).Success? && Crosses(pool, budget)
    ensures var remaining := pool.curve.realTokenReserves;
            var rates := V3Rates(pool).value;
            && remaining < pool.curve.virtualTokenReserves
            && var left := LeftAfterCurve(pool.curve, budget, rates);
               var curveNet := CurveNet(pool.curve, remaining);
               if Guess(left, rates.protocol, rates.creator, 0) < 2 then
                 BuyQuote(pool, budget).value == remaining
               else
                 && 0 < Net(left, rates)
                 && 0 < PoolQuote(pool, curveNet) && 0 < PoolBase(pool)
                 && BuyQuote(pool, budget).value
                    == remaining + CurveOut(PoolQuote(pool, curveNet), PoolBase(pool), Net(left, rates) - 1)
  {
    var rates := V3Rates(pool).value;
    NetWithinBudget(budget, rates);
    CrossingConservesBudget(pool, budget);
    NetWithinBudget(LeftAfterCurve(pool.curve, budget, rates), rates);
  }

  function PoolBase(pool: PumpV3Pool): int {
    pool.curveBaseTokenBalance - pool.curve.realTokenReserves
  }

  function PoolQuote(pool: PumpV3Pool, curveNet: nat): int {
    pool.realQuoteReserves + curveNet - if pool.quoteIsWsol then pool.poolMigrationFee else 0
  }

  /** The exhausted-reserve and uncovered-fee errors are unreachable for every snapshot and budget. */
  lemma DeadErrors(pool: PumpV3Pool, budget: u64)
    ensures BuyQuote(pool, budget) != Failure(ReserveExhausted)
    ensures BuyQuote(pool, budget) != Failure(FeesNotCovered)
  {
    if V3Rates(pool).Success? {
      var rates := V3Rates(pool).value;
      NetWithinBudget(budget, rates);
      if Crosses(pool, budget) {
        CrossingConservesBudget(pool, budget);
        NetWithinBudget(LeftAfterCurve(pool.curve, budget, rates), rates);
      }
    }
  }

  /** V1 is V3 capped by the curve's supply: whenever V3 quotes, V1 quotes the smaller of the two,
      and within the curve the quotes agree on success and value. */
  lemma V1RefinesV3(pool: PumpV3Pool, budget: u64)
    requires V3Rates(pool).Success?
    ensures var v1, v3 := V1Quote(pool.curve, budget), BuyQuote(pool, budget);
            && (!Crosses(pool, budget) ==> v1.Success? == v3.Success? && (v3.Success? ==> v1.value == v3.value))
            && (v3.Success? && 0 < pool.curve.realTokenReserves ==>
                  v1 == Success(Min(v3.value, pool.curve.realTokenReserves)))
            && (Crosses(pool, budget) && pool.curve.realTokenReserves == 0 ==> v1.Failure?)
  {
    var rates := V3Rates(pool).value;
    NetWithinBudget(budget, rates);
    var x, y := pool.curve.virtualSolReserves, pool.curve.virtualTokenReserves;
    if 0 < x {
      CurveOutReaches(x, y, 0, 1);
      if 0 < Net(budget, rates) {
        CurveOutBelowReserve(x, y, Net(budget, rates) - 1);
      }
    }
    if Crosses(pool, budget) && BuyQuote(pool, budget).Success? {
      CrossQuote(pool, budget);
    }
  }

  lemma CurveTokensGrow(curve: PumpCurve, a: nat, b: nat)
    requires 0 < curve.virtualSolReserves && 0 < a <= b
    ensures CurveTokens(curve, a) <= CurveTokens(curve, b)
  {
    CurveOutIsMonotone(curve.virtualSolReserves, curve.virtualTokenReserves, a - 1, b - 1);
  }

  lemma GuessGrows(a: nat, b: nat, rates: Rates)
    requires a <= b
    ensures Guess(a, rates.protocol, rates.creator, 0) <= Guess(b, rates.protocol, rates.creator, 0)
  {
    var d := BPS + rates.protocol + rates.creator;
    FloorGalois(a * BPS, d, a * BPS / d);
    FloorGalois(b * BPS, d, a * BPS / d);
  }

  lemma CrossIsMonotone(pool: PumpV3Pool, budget: u64, more: u64)
    requires budget <= more && Crosses(pool, budget) && Crosses(pool, more)
    requires BuyQuote(pool, budget).Success? && BuyQuote(pool, more).Success?
    ensures BuyQuote(pool, budget).value <= BuyQuote(pool, more).value
  {
    var rates := V3Rates(pool).value;
    CrossQuote(pool, budget);
    CrossQuote(pool, more);
    var l, m := LeftAfterCurve(pool.curve, budget, rates), LeftAfterCurve(pool.curve, more, rates);
    GuessGrows(l, m, rates);
    CorrectedIsMonotone(l, m, rates.protocol, rates.creator);
    if 2 <= Guess(l, rates.protocol, rates.creator, 0) {
      var curveNet := CurveNet(pool.curve, pool.curve.realTokenReserves);
      CurveOutIsMonotone(PoolQuote(pool, curveNet), PoolBase(pool), Net(l, rates) - 1, Net(m, rates) - 1);
    }
  }

  /** Among budgets that quote, a larger one never buys less: on the curve, on the plateau of
      exactly the remaining supply, and in the pool-to-be. */
  lemma BuyQuoteIsMonotone(pool: PumpV3Pool, budget: u64, more: u64)
    requires budget <= more && BuyQuote(pool, budget).Success? && BuyQuote(pool, more).Success?
    ensures BuyQuote(pool, budget).value <= BuyQuote(pool, more).value
  {
    var rates := V3Rates(pool).value;
    CorrectedIsMonotone(budget, more, rates.protocol, rates.creator);
    if Crosses(pool, budget) {
      CurveTokensGrow(pool.curve, Net(budget, rates), Net(more, rates));
      CrossIsMonotone(pool, budget, more);
    } else {
      CurveQuote(pool, budget);
      if Crosses(pool, more) {
        CrossQuote(pool, more);
      } else {
        CurveQuote(pool, more);
        CurveTokensGrow(pool.curve, Net(budget, rates), Net(more, rates));
      }
    }
  }

  // ----- exact output -----

  /** An input with its fees, unless a product or the sum overflows u128. */
  function CheckedWithRates(x: nat, rates: Rates): Result<nat, PumpError> {
    if x * rates.protocol > U128_MAX || x * rates.creator > U128_MAX || WithRates(x, rates) > U128_MAX then
      Failure(ArithmeticOverflow)
    else Success(WithRates(x, rates))
  }

  /** The pool-to-be's net price for `past` tokens beyond the curve. */
  function PoolLegNet(pool: PumpV3Pool, past: nat, curveNet: nat): Result<nat, PumpError> {
    if PoolBase(pool) <= past then Failure(ReserveExhausted)
    else if PoolQuote(pool, curveNet) <= 0 || PoolQuote(pool, curveNet) > U64_MAX then Failure(EmptyPoolToBe)
    else Success(CurveIn(PoolQuote(pool, curveNet), PoolBase(pool), past))
  }

  /** The source's `buy_quote_for_tokens` where u128 overflow is checked: there it panics, which is an error
      here. `PumpV3Overflow` has the build that wraps. */
  function QuoteForTokens(pool: PumpV3Pool, amount: u64): Result<u64, PumpError> {
    var rates :- V3Rates(pool);
    var curve := pool.curve;
    var remaining := curve.realTokenReserves;
    if amount == 0 then Failure(InvalidInput)
    else if pool.mayhemMode && amount > remaining then Failure(MayhemGraduation)
    else if curve.virtualSolReserves == 0 then Failure(EmptyReserves)
    else
      var curveTokens := Min(amount, remaining);
      if curve.virtualTokenReserves <= curveTokens then Failure(ReserveExhausted)
      else
        var net := CurveNet(curve, curveTokens);
        var curveTotal :- CheckedWithRates(net, rates);
        if amount <= remaining then PositiveU64(curveTotal)
        else if !pool.supportsGraduation then Failure(GraduationDisabled)
        else
          var legNet :- PoolLegNet(pool, amount - remaining, net);
          var legTotal :- CheckedWithRates(legNet, rates);
          if curveTotal + legTotal > U128_MAX then Failure(ArithmeticOverflow)
          else PositiveU64(curveTotal + legTotal)
  }

  /** The net price of a target on the curve. */
  lemma CurvePrice(pool: PumpV3Pool, amount: u64)
    requires QuoteForTokens(pool, amount).Success? && amount <= pool.curve.realTokenReserves
    ensures amount < pool.curve.virtualTokenReserves && 0 < pool.curve.virtualSolReserves
    ensures QuoteForTokens(pool, amount).value == WithRates(CurveNet(pool.curve, amount), V3Rates(pool).value)
    ensures Net(QuoteForTokens(pool, amount).value, V3Rates(pool).value) == CurveNet(pool.curve, amount)
  {
    var rates := V3Rates(pool).value;
    CorrectedOfWithFees(CurveNet(pool.curve, amount), rates.protocol, rates.creator);
  }

  /** Within the curve, spending the quoted price buys at most the target, and buys exactly the
      target precisely when the price divides evenly. */
  lemma CurveSandwich(pool: PumpV3Pool, amount: u64)
    requires amount <= pool.curve.realTokenReserves && QuoteForTokens(pool, amount).Success?
    requires BuyQuote(pool, QuoteForTokens(pool, amount).value).Success?
    ensures amount < pool.curve.virtualTokenReserves
    ensures var bought := BuyQuote(pool, QuoteForTokens(pool, amount).value).value;
            && bought <= amount
            && (bought == amount
                <==> amount * pool.curve.virtualSolReserves % (pool.curve.virtualTokenReserves - amount) == 0)
  {
    var curve := pool.curve;
    CurvePrice(pool, amount);
    CurveNetBrackets(curve, amount, CurveNet(curve, amount));
    CurveQuote(pool, QuoteForTokens(pool, amount).value);
    FloorBounds(amount * curve.virtualSolReserves, curve.virtualTokenReserves - amount);
    CurveOutReaches(curve.virtualSolReserves, curve.virtualTokenReserves, CurveNet(curve, amount) - 1, amount);
  }

  /** One more unit of net than the quoted price always suffices for a target on the curve. */
  lemma CurveOneMoreUnit(pool: PumpV3Pool, amount: u64, budget: u64)
    requires amount <= pool.curve.realTokenReserves && QuoteForTokens(pool, amount).Success?
    requires BuyQuote(pool, budget).Success?
    requires Net(QuoteForTokens(pool, amount).value, V3Rates(pool).value) < Net(budget, V3Rates(pool).value)
    ensures amount <= BuyQuote(pool, budget).value
  {
    CurvePrice(pool, amount);
    CurveNetBrackets(pool.curve, amount, Net(budget, V3Rates(pool).value));
    if Crosses(pool, budget) {
      CrossQuote(pool, budget);
    } else {
      CurveQuote(pool, budget);
    }
  }

  /** The price of a target past graduation: the curve's and the pool-to-be's nets, each with fees. */
  lemma GraduationPrice(pool: PumpV3Pool, amount: u64)
    requires QuoteForTokens(pool, amount).Success? && pool.curve.realTokenReserves < amount
    ensures pool.curve.realTokenReserves < pool.curve.virtualTokenReserves && 0 < pool.curve.virtualSolReserves
    ensures var rates := V3Rates(pool).value;
            var remaining := pool.curve.realTokenReserves;
            var curveNet := CurveNet(pool.curve, remaining);
            && amount - remaining < PoolBase(pool) && 0 < PoolQuote(pool, curveNet)
            && var legNet := CurveIn(PoolQuote(pool, curveNet), PoolBase(pool), amount - remaining);
               QuoteForTokens(pool, amount).value == WithRates(curveNet, rates) + WithRates(legNet, rates)
  {
  }

  /** Past graduation, spending the quoted price always buys strictly less than the target. */
  lemma GraduationUnderdelivers(pool: PumpV3Pool, amount: u64)
    requires pool.curve.realTokenReserves < amount && QuoteForTokens(pool, amount).Success?
    requires BuyQuote(pool, QuoteForTokens(pool, amount).value).Success?
    ensures BuyQuote(pool, QuoteForTokens(pool, amount).value).value < amount
  {
    var budget := QuoteForTokens(pool, amount).value;
    if Crosses(pool, budget) {
      var rates := V3Rates(pool).value;
      var remaining := pool.curve.realTokenReserves;
      GraduationPrice(pool, amount);
      var curveNet := CurveNet(pool.curve, remaining);
      var x, y := PoolQuote(pool, curveNet), PoolBase(pool);
      var legNet := CurveIn(x, y, amount - remaining);
      assert LeftAfterCurve(pool.curve, budget, rates) == WithRates(legNet, rates);
      CorrectedOfWithFees(legNet, rates.protocol, rates.creator);
      CrossQuote(pool, budget);
      if 0 < legNet {
        CurveInIsLeast(x, y, amount - remaining, legNet - 1);
      }
    } else {
      CurveQuote(pool, budget);
    }
  }

  lemma OneMoreUnitCovers(x: nat, y: nat, past: nat, net: nat)
    requires 0 < x && 0 < past < y && CurveIn(x, y, past) < net
    ensures past <= CurveOut(x, y, net - 1) && 2 <= net
  {
    MulMono(1, past, x);
    CurveInIsLeast(x, y, past, net - 1);
  }

  /** A budget for one more unit of pool-to-be net delivers the target exactly when the curve part
      of the quote really crosses. */
  lemma GraduationOneMoreUnit(pool: PumpV3Pool, amount: u64, budget: u64, rates: Rates, curveNet: nat, legNet: nat)
    requires QuoteForTokens(pool, amount).Success? && BuyQuote(pool, budget).Success?
    requires pool.curve.realTokenReserves < amount && V3Rates(pool) == Success(rates)
    requires pool.curve.realTokenReserves < pool.curve.virtualTokenReserves
    requires curveNet == CurveNet(pool.curve, pool.curve.realTokenReserves)
    requires PoolLegNet(pool, amount - pool.curve.realTokenReserves, curveNet) == Success(legNet)
    requires WithRates(curveNet, rates) + WithRates(legNet + 1, rates) <= budget
    ensures amount <= BuyQuote(pool, budget).value <==> Crosses(pool, budget)
  {
    if Crosses(pool, budget) {
      var past := amount - pool.curve.realTokenReserves;
      var x, y := PoolQuote(pool, curveNet), PoolBase(pool);
      var left := LeftAfterCurve(pool.curve, budget, rates);
      NetAffords(left, rates, legNet + 1);
      NetWithinBudget(left, rates);
      CrossQuote(pool, budget);
      OneMoreUnitCovers(x, y, past, Net(left, rates));
    } else {
      CurveQuote(pool, budget);
    }
  }

  /** Without fees an input, its price and the net of that price are the same. */
  lemma NoFees(x: u64, rates: Rates)
    requires rates.protocol == 0 && rates.creator == 0
    ensures CheckedWithRates(x, rates) == Success(x)
    ensures NetQuote(x, rates) == Success(x)
  {
    CeilGalois(0, BPS, 0);
    assert WithRates(x, rates) == x;
    CorrectedOfWithFees(x, rates.protocol, rates.creator);
    NetWithinBudget(x, rates);
  }

  /** A fee-free curve with one token left at a high price, next to a large migrated balance. */
  predicate NearlySoldOut(pool: PumpV3Pool) {
    && V3Rates(pool) == Success(Rates(0, 0))
    && pool.curve.virtualTokenReserves == 4 && pool.curve.virtualSolReserves == 1_000
    && pool.curve.realTokenReserves == 1 && pool.curveBaseTokenBalance == 1_000
    && pool.realQuoteReserves == 0 && pool.poolMigrationFee == 0
    && pool.supportsGraduation && !pool.mayhemMode
  }

  lemma NearlySoldOutCurve(curve: PumpCurve, net: nat)
    requires curve.virtualTokenReserves == 4 && curve.virtualSolReserves == 1_000 && net == 400
    ensures CurveNet(curve, 1) == 334
    ensures CurveTokens(curve, net) == 1
  {
    CurveOutReaches(1_000, 4, net - 1, 1);
    CurveOutReaches(1_000, 4, net - 1, 2);
  }

  lemma NearlySoldOutLeg(pool: PumpV3Pool, past: nat, curveNet: nat)
    requires NearlySoldOut(pool) && past == 1 && curveNet == 334
    ensures PoolLegNet(pool, past, curveNet) == Success(1)
  {
    CeilGalois(past * curveNet, 998, 1);
    CeilGalois(past * curveNet, 998, 0);
  }

  lemma PriceIsSum(pool: PumpV3Pool, amount: u64, rates: Rates, curveNet: nat, legNet: nat, curveTotal: nat,
                   legTotal: nat)
    requires V3Rates(pool) == Success(rates) && 0 < pool.curve.virtualSolReserves
    requires !pool.mayhemMode && pool.supportsGraduation
    requires pool.curve.realTokenReserves < amount && pool.curve.realTokenReserves < pool.curve.virtualTokenReserves
    requires CurveNet(pool.curve, pool.curve.realTokenReserves) == curveNet
    requires PoolLegNet(pool, amount - pool.curve.realTokenReserves, curveNet) == Success(legNet)
    requires CheckedWithRates(curveNet, rates) == Success(curveTotal)
    requires CheckedWithRates(legNet, rates) == Success(legTotal)
    requires 0 < curveTotal + legTotal <= U64_MAX
    ensures QuoteForTokens(pool, amount) == Success(curveTotal + legTotal)
  {
  }

  lemma NetIsSpent(pool: PumpV3Pool, budget: u64, rates: Rates, net: nat)
    requires V3Rates(pool) == Success(rates) && NetQuote(budget, rates) == Success(net)
    requires 0 < pool.curve.virtualTokenReserves && 0 < pool.curve.virtualSolReserves && 1 < net
    requires 0 < CurveTokens(pool.curve, net) <= pool.curve.realTokenReserves
    ensures BuyQuote(pool, budget) == Success(CurveTokens(pool.curve, net))
  {
  }

  lemma NearlySoldOutExists() returns (pool: PumpV3Pool)
    ensures NearlySoldOut(pool)
  {
    pool := PumpV3Pool(PumpCurve(4, 1_000, 1, 0, 0, true, false, false), false, true, false, true, 0, 1_000, 0, false);
  }

  lemma NearlySoldOutQuotes(pool: PumpV3Pool, amount: u64, budget: u64)
    requires NearlySoldOut(pool) && amount == 2 && budget == 400
    ensures QuoteForTokens(pool, amount) == Success(335)
    ensures BuyQuote(pool, budget) == Success(1) && !Crosses(pool, budget)
  {
    NearlySoldOutCurve(pool.curve, budget);
    NearlySoldOutLeg(pool, 1, 334);
    PriceIsSum(pool, amount, Rates(0, 0), 334, 1, 334, 1) by {
      NoFees(334, Rates(0, 0));
      NoFees(1, Rates(0, 0));
    }
    NoFees(budget, Rates(0, 0));
    NetIsSpent(pool, budget, Rates(0, 0), budget);
    NetQuoteIsLargest(budget, Rates(0, 0));
  }

  /** Such a budget need not cross: where one token costs far more than the pool-to-be asks, a
      budget well above the price still quotes the curve's last token only, and the rest is lost. */
  lemma PlateauKeepsLeftover() returns (pool: PumpV3Pool, amount: u64, budget: u64)
    ensures QuoteForTokens(pool, amount).Success? && QuoteForTokens(pool, amount).value < budget
    ensures pool.curve.realTokenReserves < amount && !Crosses(pool, budget)
    ensures BuyQuote(pool, budget) == Success(pool.curve.realTokenReserves)
  {
    pool := NearlySoldOutExists();
    amount, budget :| amount == 2 && budget == 400;
    NearlySoldOutQuotes(pool, amount, budget);
  }
}
