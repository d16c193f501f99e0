/** What LaunchLab buys and sells mean on the fields of the pool (crates/sdk/src/quote.rs:92-249). */
module LaunchLabFields {
  import opened Wrappers
  import opened Arith
  import opened Curve
  import opened TransferFee
  import opened LaunchLab

  // ----- buys -----

  /** Of `amountIn`, `c` reaches the curve, which quotes `quoted` for it. */
  ghost predicate CurveSells(pool: LaunchLabPool, amountIn: u64, shareFeeRate: u64, c: u64, quoted: u128) {
    var vault := amountIn - pool.quoteTransferFee.Calculate(amountIn);
    var rate := pool.tradeFeeRate + pool.platformFeeRate + pool.creatorFeeRate + shareFeeRate;
    var x, y := pool.virtualQuote + pool.realQuote, pool.virtualBase - pool.realBase;
    && 0 < amountIn && pool.curveType == 0 && pool.feeRatesKnown && rate <= 1_000_000 && 0 <= vault
    && c == vault - DivCeil(vault * rate, 1_000_000)
    && 0 < x && 0 < y && x + c <= U128_MAX && c * y <= U128_MAX
    && IsQuotient(quoted, c * y, x + c)
  }

  lemma CurveSellsExactly(pool: LaunchLabPool, amountIn: u64, shareFeeRate: u64, c: u64, quoted: u128)
    ensures CurveSells(pool, amountIn, shareFeeRate, c, quoted)
            <==> && 0 < amountIn && pool.curveType == 0 && TotalFeeRate(pool, shareFeeRate).Success?
                 && CurveInput(pool, amountIn, TotalFeeRate(pool, shareFeeRate).value) == Success(c)
                 && QuotedOutput(pool, c) == Success(quoted)
  {
    var x, y := pool.virtualQuote + pool.realQuote, pool.virtualBase - pool.realBase;
    if 0 < x && 0 < y {
      CurveOutExactly(x, y, c, quoted);
    }
  }

  ghost predicate SellsAtLeast(pool: LaunchLabPool, g: u64, shareFeeRate: u64, amount: nat) {
    exists c: u64, quoted: u128 :: CurveSells(pool, g, shareFeeRate, c, quoted) && amount <= quoted
  }

  /** The least input that buys `remaining`; nothing, when nothing remains. */
  ghost predicate BuysOut(pool: LaunchLabPool, amountIn: u64, shareFeeRate: u64, remaining: nat) {
    if remaining == 0 then amountIn == 0
    else
      && SellsAtLeast(pool, amountIn, shareFeeRate, remaining)
      && forall g: u64 :: SellsAtLeast(pool, g, shareFeeRate, remaining) ==> amountIn <= g
  }

  /** The supply caps the buy. */
  predicate Clamped(pool: LaunchLabPool, quoted: u128) {
    0 < pool.totalBaseSell && pool.totalBaseSell - pool.realBase < quoted
  }

  /** What leaves the curve: what it quoted, or the supply left. */
  function Gross(pool: LaunchLabPool, quoted: u128): int {
    if Clamped(pool, quoted) then pool.totalBaseSell - pool.realBase else quoted
  }

  /** A quote for what the curve sells: the whole input, or the least that buys out the supply, and
      what leaves the curve less the base mint's fee. */
  ghost predicate Settles(pool: LaunchLabPool, amountIn: u64, shareFeeRate: u64, quoted: u128, quote: BuyQuote) {
    var gross := Gross(pool, quoted);
    && (0 < pool.totalBaseSell ==> pool.realBase <= pool.totalBaseSell)
    && 0 <= gross <= U64_MAX
    && quote.amountOut == Max(0, gross - pool.baseTransferFee.Calculate(gross))
    && if Clamped(pool, quoted) then BuysOut(pool, quote.amountIn, shareFeeRate, gross) else quote.amountIn == amountIn
  }

  lemma NothingBuysNothing(pool: LaunchLabPool, rate: nat, amount: nat)
    requires rate <= FEE_DENOM && 0 < amount
    ensures !BuysAtLeast(pool, 0, rate, amount)
  {
    assert forall x: nat, y: nat :: 0 < x ==> CurveOut(x, y, 0) == 0;
    assert forall fee: nat :: fee <= FEE_DENOM ==> NetOfFee(0, fee, FEE_DENOM) == 0;
  }

  lemma SellsExactly(pool: LaunchLabPool, g: u64, shareFeeRate: u64, amount: nat)
    requires 0 < amount && pool.curveType == 0 && TotalFeeRate(pool, shareFeeRate).Success?
    ensures SellsAtLeast(pool, g, shareFeeRate, amount)
            <==> BuysAtLeast(pool, g, TotalFeeRate(pool, shareFeeRate).value, amount)
  {
    var rate := TotalFeeRate(pool, shareFeeRate).value;
    NothingBuysNothing(pool, rate, amount);
    forall c: u64, quoted: u128
      ensures CurveSells(pool, g, shareFeeRate, c, quoted)
              <==> 0 < g && CurveInput(pool, g, rate) == Success(c) && QuotedOutput(pool, c) == Success(quoted)
    {
      CurveSellsExactly(pool, g, shareFeeRate, c, quoted);
    }
    if BuysAtLeast(pool, g, rate, amount) {
      var c := CurveInput(pool, g, rate).value;
      assert CurveSells(pool, g, shareFeeRate, c, QuotedOutput(pool, c).value);
    }
  }

  /** The clamp's input is the least one that buys out the supply. */
  lemma GraduationBuysOut(pool: LaunchLabPool, amountIn: u64, shareFeeRate: u64, g: u64)
    requires EntersClamp(pool, amountIn, shareFeeRate)
    ensures BuysOut(pool, g, shareFeeRate, pool.totalBaseSell - pool.realBase)
            <==> && BuyFill(pool, amountIn, shareFeeRate).Success?
                 && g == BuyFill(pool, amountIn, shareFeeRate).value.amountIn
  {
    var remaining := pool.totalBaseSell - pool.realBase;
    ClampIsTight(pool, amountIn, shareFeeRate);
    var least := BuyFill(pool, amountIn, shareFeeRate).value.amountIn;
    if 0 < remaining {
      SellsExactly(pool, least, shareFeeRate, remaining);
      forall g: u64
        ensures SellsAtLeast(pool, g, shareFeeRate, remaining)
                <==> BuysAtLeast(pool, g, TotalFeeRate(pool, shareFeeRate).value, remaining)
      {
        SellsExactly(pool, g, shareFeeRate, remaining);
      }
    }
  }

  /** With what the curve quotes known, a buy succeeds with a quote exactly when it settles so. */
  lemma BuySettles(pool: LaunchLabPool, amountIn: u64, shareFeeRate: u64, c: u64, quoted: u128, quote: BuyQuote)
    requires CurveSells(pool, amountIn, shareFeeRate, c, quoted)
    ensures Buy(pool, amountIn, shareFeeRate) == Success(quote)
            <==> Settles(pool, amountIn, shareFeeRate, quoted, quote)
  {
    CurveSellsExactly(pool, amountIn, shareFeeRate, c, quoted);
    assert Quotes(pool, amountIn, TotalFeeRate(pool, shareFeeRate).value, quoted);
    if Clamped(pool, quoted) && pool.realBase <= pool.totalBaseSell {
      ClampIsTight(pool, amountIn, shareFeeRate);
      GraduationBuysOut(pool, amountIn, shareFeeRate, quote.amountIn);
    }
  }

  /** A buy succeeds with a quote exactly when the pool's fields say so. */
  lemma BuyExactly(pool: LaunchLabPool, amountIn: u64, shareFeeRate: u64, quote: BuyQuote)
    ensures Buy(pool, amountIn, shareFeeRate) == Success(quote)
            <==> exists c: u64, quoted: u128 ::
                   && CurveSells(pool, amountIn, shareFeeRate, c, quoted)
                   && Settles(pool, amountIn, shareFeeRate, quoted, quote)
  {
    if Buy(pool, amountIn, shareFeeRate) == Success(quote) {
      var c := CurveInput(pool, amountIn, TotalFeeRate(pool, shareFeeRate).value).value;
      var quoted := QuotedOutput(pool, c).value;
      CurveSellsExactly(pool, amountIn, shareFeeRate, c, quoted);
      BuySettles(pool, amountIn, shareFeeRate, c, quoted, quote);
    }
    if c: u64, quoted: u128 :| && CurveSells(pool, amountIn, shareFeeRate, c, quoted)
                               && Settles(pool, amountIn, shareFeeRate, quoted, quote) {
      BuySettles(pool, amountIn, shareFeeRate, c, quoted, quote);
    }
  }

  /** Every unit that a buy takes off the curve is the user's or the base mint's. */
  lemma BuyConserves(pool: LaunchLabPool, amountIn: u64, shareFeeRate: u64) returns (c: u64, quoted: u128)
    requires Buy(pool, amountIn, shareFeeRate).Success? && pool.baseTransferFee.basisPoints <= 10_000
    ensures CurveSells(pool, amountIn, shareFeeRate, c, quoted) && 0 <= Gross(pool, quoted) <= U64_MAX
    ensures Buy(pool, amountIn, shareFeeRate).value.amountOut + pool.baseTransferFee.Calculate(Gross(pool, quoted))
            == Gross(pool, quoted)
  {
    var quote := Buy(pool, amountIn, shareFeeRate).value;
    BuyExactly(pool, amountIn, shareFeeRate, quote);
    c, quoted :| && CurveSells(pool, amountIn, shareFeeRate, c, quoted)
                 && Settles(pool, amountIn, shareFeeRate, quoted, quote);
    NetIsMonotone(pool.baseTransferFee, Gross(pool, quoted), Gross(pool, quoted));
  }

  // ----- sells -----

  /** `baseIn` takes `gross` off the curve. */
  ghost predicate CurveBuysBack(pool: LaunchLabPool, baseIn: u64, gross: u128) {
    var credit := baseIn - pool.baseTransferFee.Calculate(baseIn);
    var x, y := pool.virtualBase - pool.realBase, pool.virtualQuote + pool.realQuote;
    && 0 < baseIn && pool.curveType == 0 && 0 <= credit <= pool.realBase
    && 0 < x && x + credit <= U128_MAX && y <= U128_MAX && credit * y <= U128_MAX
    && IsQuotient(gross, credit * y, x + credit)
    && gross <= pool.realQuote
  }

  /** Of `gross`, the user receives `amountOut` after the pool's fee, saturating at u128, and the quote
      mint's. */
  ghost predicate Pays(pool: LaunchLabPool, gross: u128, amountOut: u64) {
    var rate := pool.tradeFeeRate + pool.platformFeeRate + pool.creatorFeeRate;
    && pool.feeRatesKnown && rate <= 1_000_000
    && 0 <= gross * rate
    && var vaultOut := gross - DivCeil(Min(gross * rate, U128_MAX), 1_000_000);
       && 0 <= vaultOut <= U64_MAX
       && amountOut == Max(0, vaultOut - pool.quoteTransferFee.Calculate(vaultOut))
  }

  lemma CurveBuysBackExactly(pool: LaunchLabPool, baseIn: u64, gross: u128)
    ensures CurveBuysBack(pool, baseIn, gross)
            <==> SellOnCurve(pool, baseIn).Success? && SellOnCurve(pool, baseIn).value.gross == gross
  {
    var credit := baseIn - pool.baseTransferFee.Calculate(baseIn);
    var x, y := pool.virtualBase - pool.realBase, pool.virtualQuote + pool.realQuote;
    if 0 < x && 0 <= credit {
      CurveOutExactly(x, y, credit, gross);
    }
  }

  /** A sell succeeds with an amount exactly when the pool's fields say so. */
  lemma SellExactly(pool: LaunchLabPool, baseIn: u64, amountOut: u64)
    ensures Sell(pool, baseIn) == Success(amountOut)
            <==> exists gross: u128 :: CurveBuysBack(pool, baseIn, gross) && Pays(pool, gross, amountOut)
  {
    forall gross: u128
      ensures CurveBuysBack(pool, baseIn, gross)
              <==> SellOnCurve(pool, baseIn).Success? && SellOnCurve(pool, baseIn).value.gross == gross
    {
      CurveBuysBackExactly(pool, baseIn, gross);
    }
    if SellOnCurve(pool, baseIn).Success? {
      var gross := SellOnCurve(pool, baseIn).value.gross;
      MulMono(0, gross, pool.tradeFeeRate + pool.platformFeeRate + pool.creatorFeeRate);
      assert CurveBuysBack(pool, baseIn, gross);
    }
  }
}
