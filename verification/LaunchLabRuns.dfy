/** Whole runs of a LaunchLab curve: its reserves move by what the quotes compute. */
module LaunchLabRuns {
  import opened Wrappers
  import opened Arith
  import opened Curve
  import opened TransferFee
  import opened LaunchLab
  import opened LaunchLabFields

  datatype Trade =
    | BuyTrade(amountIn: u64, shareFeeRate: u64)
    | SellTrade(baseIn: u64)

  /** The constant product, over virtual and real reserves together. */
  function Product(pool: LaunchLabPool): int {
    (pool.virtualQuote + pool.realQuote) * (pool.virtualBase - pool.realBase)
  }

  /** A quoted buy credits the curve share of the returned input and releases the gross output. */
  function BuyStep(pool: LaunchLabPool, amountIn: u64, shareFeeRate: u64): LaunchLabPool {
    if Buy(pool, amountIn, shareFeeRate).Failure? then pool
    else
      BuyStepFits(pool, amountIn, shareFeeRate);
      var fill := BuyFill(pool, amountIn, shareFeeRate).value;
      var rate := TotalFeeRate(pool, shareFeeRate).value;
      pool.(realQuote := pool.realQuote + CurveInput(pool, fill.amountIn, rate).value,
            realBase := pool.realBase + fill.grossOut)
  }

  /** A quoted sell credits the net base and releases the gross quote. */
  function SellStep(pool: LaunchLabPool, baseIn: u64): LaunchLabPool {
    if Sell(pool, baseIn).Failure? then pool
    else
      var fill := SellOnCurve(pool, baseIn).value;
      pool.(realBase := pool.realBase - fill.curveInput,
            realQuote := pool.realQuote - fill.gross)
  }

  /** A rejected trade leaves the curve unchanged. */
  function Step(pool: LaunchLabPool, trade: Trade): LaunchLabPool {
    match trade
    case BuyTrade(amountIn, shareFeeRate) => BuyStep(pool, amountIn, shareFeeRate)
    case SellTrade(baseIn) => SellStep(pool, baseIn)
  }

  function Run(pool: LaunchLabPool, trades: seq<Trade>): LaunchLabPool
    decreases |trades|
  {
    if trades == [] then pool else Run(Step(pool, trades[0]), trades[1..])
  }

  /** A buy's gross output is reached by the curve share of the input it returns. */
  lemma BuyStepFits(pool: LaunchLabPool, amountIn: u64, shareFeeRate: u64)
    requires BuyFill(pool, amountIn, shareFeeRate).Success?
    ensures TotalFeeRate(pool, shareFeeRate).Success?
    ensures var fill := BuyFill(pool, amountIn, shareFeeRate).value;
            var x, y := pool.virtualQuote + pool.realQuote, pool.virtualBase - pool.realBase;
            var c := CurveInput(pool, fill.amountIn, TotalFeeRate(pool, shareFeeRate).value);
            && c.Success?
            && 0 < x && 0 < y && x + c.value <= U128_MAX
            && fill.grossOut <= CurveOut(x, y, c.value)
            && pool.realBase + fill.grossOut <= pool.virtualBase
            && (pool.totalBaseSell != 0 ==> pool.realBase + fill.grossOut <= pool.totalBaseSell)
  {
    var fill := BuyFill(pool, amountIn, shareFeeRate).value;
    var rate := TotalFeeRate(pool, shareFeeRate).value;
    var x, y := pool.virtualQuote + pool.realQuote, pool.virtualBase - pool.realBase;
    var quoted := QuotedOutput(pool, CurveInput(pool, amountIn, rate).value).value;
    assert Quotes(pool, amountIn, rate, quoted);
    if EntersClamp(pool, amountIn, shareFeeRate) {
      ClampIsTight(pool, amountIn, shareFeeRate);
    } else {
      assert fill == Fill(amountIn, quoted);
    }
    CurveOutBelowReserve(x, y, CurveInput(pool, fill.amountIn, rate).value);
  }

  lemma BuyStepKeepsProduct(pool: LaunchLabPool, amountIn: u64, shareFeeRate: u64)
    requires Buy(pool, amountIn, shareFeeRate).Success?
    ensures Product(pool) <= Product(BuyStep(pool, amountIn, shareFeeRate))
  {
    BuyStepFits(pool, amountIn, shareFeeRate);
    var fill := BuyFill(pool, amountIn, shareFeeRate).value;
    var c := CurveInput(pool, fill.amountIn, TotalFeeRate(pool, shareFeeRate).value).value;
    ProductIsKept(pool.virtualQuote + pool.realQuote, pool.virtualBase - pool.realBase, c, fill.grossOut);
  }

  lemma Commutes(a: int, b: int)
    ensures a * b == b * a
  {
  }

  lemma SellStepKeepsProduct(pool: LaunchLabPool, baseIn: u64)
    requires Sell(pool, baseIn).Success?
    ensures Product(pool) <= Product(SellStep(pool, baseIn))
  {
    var fill := SellOnCurve(pool, baseIn).value;
    var x, y := pool.virtualBase - pool.realBase, pool.virtualQuote + pool.realQuote;
    var next := SellStep(pool, baseIn);
    ProductIsKept(x, y, fill.curveInput, fill.gross);
    assert next.virtualBase - next.realBase == x + fill.curveInput;
    assert next.virtualQuote + next.realQuote == y - fill.gross;
    Commutes(x, y);
    Commutes(x + fill.curveInput, y - fill.gross);
  }

  /** No quoted trade lowers the constant product, over-sells the curve or touches the
      virtual reserves. */
  lemma StepKeepsProduct(pool: LaunchLabPool, trade: Trade)
    requires pool.totalBaseSell == 0 || pool.realBase <= pool.totalBaseSell
    ensures var next := Step(pool, trade);
            && Product(pool) <= Product(next)
            && (next.totalBaseSell == 0 || next.realBase <= next.totalBaseSell)
            && next == pool.(realBase := next.realBase, realQuote := next.realQuote)
  {
    match trade
    case BuyTrade(amountIn, shareFeeRate) =>
      if Buy(pool, amountIn, shareFeeRate).Success? {
        BuyStepFits(pool, amountIn, shareFeeRate);
        BuyStepKeepsProduct(pool, amountIn, shareFeeRate);
      }
    case SellTrade(baseIn) =>
      if Sell(pool, baseIn).Success? {
        SellStepKeepsProduct(pool, baseIn);
      }
  }

  /** What a quoted buy moves: the gross output leaves the base, and what reaches the curve of the returned
      input joins the quote, which is nothing once the supply is sold out. */
  lemma BuyMoves(pool: LaunchLabPool, amountIn: u64, shareFeeRate: u64) returns (quoted: u128, c: u64)
    requires Buy(pool, amountIn, shareFeeRate).Success?
    ensures exists all: u64 :: CurveSells(pool, amountIn, shareFeeRate, all, quoted)
    ensures var paid := Buy(pool, amountIn, shareFeeRate).value.amountIn;
            if paid == 0 then c == 0 else exists q: u128 :: CurveSells(pool, paid, shareFeeRate, c, q)
    ensures var next := Step(pool, BuyTrade(amountIn, shareFeeRate));
            next.realBase == pool.realBase + Gross(pool, quoted) && next.realQuote == pool.realQuote + c
  {
    var quote := Buy(pool, amountIn, shareFeeRate).value;
    var rate := TotalFeeRate(pool, shareFeeRate).value;
    BuyStepFits(pool, amountIn, shareFeeRate);
    var all := CurveInput(pool, amountIn, rate).value;
    quoted := QuotedOutput(pool, all).value;
    CurveSellsExactly(pool, amountIn, shareFeeRate, all, quoted);
    c := CurveInput(pool, quote.amountIn, rate).value;
    BuySettles(pool, amountIn, shareFeeRate, all, quoted, quote);
    if quote.amountIn != 0 {
      RepricedBuy(pool, amountIn, shareFeeRate);
    } else {
      CeilGalois(0, FEE_DENOM, 0);
    }
  }

  /** The input that a buy returns is priced by the curve as well. */
  lemma RepricedBuy(pool: LaunchLabPool, amountIn: u64, shareFeeRate: u64)
    requires Buy(pool, amountIn, shareFeeRate).Success? && 0 < Buy(pool, amountIn, shareFeeRate).value.amountIn
    ensures var paid, rate := Buy(pool, amountIn, shareFeeRate).value.amountIn, TotalFeeRate(pool, shareFeeRate).value;
            && CurveInput(pool, paid, rate).Success?
            && exists q: u128 :: CurveSells(pool, paid, shareFeeRate, CurveInput(pool, paid, rate).value, q)
  {
    RequoteIsIdempotent(pool, amountIn, shareFeeRate);
    var paid, rate := Buy(pool, amountIn, shareFeeRate).value.amountIn, TotalFeeRate(pool, shareFeeRate).value;
    var all := CurveInput(pool, amountIn, rate).value;
    assert Quotes(pool, amountIn, rate, QuotedOutput(pool, all).value);
    if EntersClamp(pool, amountIn, shareFeeRate) {
      ClampIsTight(pool, amountIn, shareFeeRate);
    }
    var c := CurveInput(pool, paid, rate).value;
    CurveSellsExactly(pool, paid, shareFeeRate, c, QuotedOutput(pool, c).value);
  }

  /** What a quoted sell moves: the gross output leaves the quote, and the base less its fee comes back. */
  lemma SellMoves(pool: LaunchLabPool, baseIn: u64) returns (gross: u128)
    requires Sell(pool, baseIn).Success?
    ensures CurveBuysBack(pool, baseIn, gross)
    ensures var next := Step(pool, SellTrade(baseIn));
            && next.realQuote == pool.realQuote - gross
            && next.realBase == pool.realBase - (baseIn - pool.baseTransferFee.Calculate(baseIn))
  {
    gross := SellOnCurve(pool, baseIn).value.gross;
    CurveBuysBackExactly(pool, baseIn, gross);
  }

  ghost predicate Empty(pool: LaunchLabPool) {
    pool.realBase == 0 && pool.realQuote == 0
  }

  /** Every run keeps the product at or above its start, and the sold base within the cap. */
  lemma {:induction false} RunKeepsProduct(pool: LaunchLabPool, trades: seq<Trade>)
    requires pool.totalBaseSell == 0 || pool.realBase <= pool.totalBaseSell
    ensures var end := Run(pool, trades);
            && Product(pool) <= Product(end)
            && (end.totalBaseSell == 0 || end.realBase <= end.totalBaseSell)
            && end == pool.(realBase := end.realBase, realQuote := end.realQuote)
    decreases |trades|
  {
    if trades != [] {
      StepKeepsProduct(pool, trades[0]);
      RunKeepsProduct(Step(pool, trades[0]), trades[1..]);
    }
  }

  /** With the product no lower than the virtual one, the real quote covers any sell of base
      that was really bought. */
  lemma ProductCoversSell(vq: nat, vb: nat, rq: nat, rb: nat, credit: nat)
    requires vq * vb <= (vq + rq) * (vb - rb) && credit <= rb < vb
    ensures CurveOut(vb - rb, vq + rq, credit) <= rq
  {
    var x, y := vb - rb, vq + rq;
    CurveOutReaches(x, y, credit, rq + 1);
    assert (vq + rq) * (vb - rb) == vq * vb - vq * rb + rq * (vb - rb);
    MulMono(credit, rb, vq);
    assert credit * (y - (rq + 1)) == credit * vq - credit;
    assert (rq + 1) * x == rq * x + x;
  }

  /** Solvency over all runs: from an empty curve, a sell within the base previously sold is
      never refused for lack of real quote, so the check at line 240 is redundant there. */
  lemma SellIsAlwaysCovered(start: LaunchLabPool, trades: seq<Trade>, baseIn: u64)
    requires Empty(start)
    ensures SellOnCurve(Run(start, trades), baseIn) != Failure(RealQuoteCannotCover)
  {
    RunKeepsProduct(start, trades);
    var end := Run(start, trades);
    var credit := end.baseTransferFee.Net(baseIn);
    if 0 <= credit <= end.realBase < end.virtualBase {
      assert Product(start) == end.virtualQuote * end.virtualBase;
      ProductCoversSell(end.virtualQuote, end.virtualBase, end.realQuote, end.realBase, credit);
    }
  }

  /** Selling back at once what a buy delivered never returns more than the buy took, clamped or not. */
  lemma RoundTripNeverProfits(pool: LaunchLabPool, amountIn: u64, shareFeeRate: u64)
    requires Buy(pool, amountIn, shareFeeRate).Success?
    ensures var bought := Buy(pool, amountIn, shareFeeRate).value;
            var sold := Sell(BuyStep(pool, amountIn, shareFeeRate), bought.amountOut);
            sold.Success? ==> sold.value <= bought.amountIn
  {
    var bought := Buy(pool, amountIn, shareFeeRate).value;
    var next := BuyStep(pool, amountIn, shareFeeRate);
    if Sell(next, bought.amountOut).Success? {
      BuyStepFits(pool, amountIn, shareFeeRate);
      var fill := BuyFill(pool, amountIn, shareFeeRate).value;
      var x, y := pool.virtualQuote + pool.realQuote, pool.virtualBase - pool.realBase;
      var c := CurveInput(pool, fill.amountIn, TotalFeeRate(pool, shareFeeRate).value).value;
      OutputWorth(x, y, c, fill.grossOut, c, y - fill.grossOut);
      WorthBoundsReturn(x, c, x + c, y - fill.grossOut, fill.grossOut,
                        SellOnCurve(next, bought.amountOut).value.curveInput);
    }
  }

  /** Every unit a sell takes off the curve is the user's, the pool's or the mint's. */
  lemma SellConserves(pool: LaunchLabPool, baseIn: u64)
    requires Sell(pool, baseIn).Success? && pool.quoteTransferFee.basisPoints <= BPS
    ensures var fill := SellOnCurve(pool, baseIn).value;
            var poolFee := FeeCeil(fill.gross, TotalFeeRate(pool, 0).value);
            && 0 <= fill.gross - poolFee <= U64_MAX
            && Sell(pool, baseIn).value + pool.quoteTransferFee.Calculate(fill.gross - poolFee) + poolFee == fill.gross
  {
    var fill := SellOnCurve(pool, baseIn).value;
    var vaultOut := fill.gross - FeeCeil(fill.gross, TotalFeeRate(pool, 0).value);
    NetIsMonotone(pool.quoteTransferFee, vaultOut, vaultOut);
  }

  /** The start is needed: a curve whose real quote was lost refuses to buy back its own base. */
  lemma UnfundedCurveRefusesSell()
    ensures var fee := TokenTransferFee(0, 0);
            var pool := LaunchLabPool(100, 100, 50, 0, 0, 0, true, 0, 0, 0, fee, fee);
            SellOnCurve(pool, 50) == Failure(RealQuoteCannotCover)
  {
    CurveOutReaches(50, 100, 50, 1);
  }
}
