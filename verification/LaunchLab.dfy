/** LaunchLab bonding-curve quotes, with the graduation clamp (crates/sdk/src/quote.rs:92-249). */
module LaunchLab {
  import opened Wrappers
  import opened Arith
  import opened Curve
  import opened TransferFee

  const FEE_DENOM: nat := 1_000_000

  datatype LaunchLabPool = LaunchLabPool(
    virtualBase: u128,
    virtualQuote: u128,
    realBase: u128,
    realQuote: u128,
    totalBaseSell: u128,
    curveType: u8,
    feeRatesKnown: bool,
    tradeFeeRate: u64,
    platformFeeRate: u64,
    creatorFeeRate: u64,
    baseTransferFee: TokenTransferFee,
    quoteTransferFee: TokenTransferFee)

  datatype LaunchLabError =
    | ZeroInput
    | UnsupportedCurve
    | FeeStateMissing
    | FeeRateTooHigh
    | TransferFeeExceedsInput
    | ReserveOverflow
    | ReserveUnderflow
    | InvalidReserves
    | CurveOverflow
    | Oversold
    | GraduationExhaustsReserve
    | GraduationInputOverflow
    | OutputExceedsU64
    | SellExceedsSold
    | RealQuoteCannotCover

  /** What a buy takes from the wallet and from the curve, before the output transfer fee. */
  datatype Fill = Fill(amountIn: u64, grossOut: u128)

  datatype BuyQuote = BuyQuote(amountIn: u64, amountOut: u64)

  /** What a sell credits to the curve and takes from it, before fees on the output. */
  datatype SellFill = SellFill(curveInput: u64, gross: u128)

  function TotalFeeRate(pool: LaunchLabPool, shareFeeRate: u64): Result<nat, LaunchLabError> {
    var rate := pool.tradeFeeRate + pool.platformFeeRate + pool.creatorFeeRate + shareFeeRate;
    if !pool.feeRatesKnown then Failure(FeeStateMissing)
    else if rate > FEE_DENOM then Failure(FeeRateTooHigh)
    else Success(rate)
  }

  /** The curve's share of a wallet debit: net of the transfer fee, then of the pool fees. The fee's
      product of a u64 and a rate cannot saturate. */
  function CurveInput(pool: LaunchLabPool, amountIn: u64, rate: nat): Result<u64, LaunchLabError>
    requires rate <= FEE_DENOM
  {
    var vaultInput := pool.quoteTransferFee.Net(amountIn);
    if vaultInput < 0 then Failure(TransferFeeExceedsInput)
    else Success(NetOfFee(vaultInput, rate, FEE_DENOM))
  }

  /** The curve's output for a credited input, before any clamp. */
  function QuotedOutput(pool: LaunchLabPool, curveInput: u64): (r: Result<u128, LaunchLabError>)
  {
    var x := pool.virtualQuote + pool.realQuote;
    var y := pool.virtualBase - pool.realBase;
    if x > U128_MAX then Failure(ReserveOverflow)
    else if y < 0 then Failure(ReserveUnderflow)
    else if x == 0 || y == 0 then Failure(InvalidReserves)
    else if x + curveInput > U128_MAX then Failure(ReserveOverflow)
    else if curveInput * y > U128_MAX then Failure(CurveOverflow)
    else
      CurveOutBelowReserve(x, y, curveInput);
      Success(CurveOut(x, y, curveInput))
  }

  function PreFeeAmount(postFee: nat, rate: nat): Result<nat, LaunchLabError> {
    if rate >= FEE_DENOM then Failure(FeeRateTooHigh)
    else Success(DivCeil(Min(postFee * FEE_DENOM, U128_MAX), FEE_DENOM - rate))
  }

  /** The wallet debit that the clamp asks for: curve, then pool fee, then transfer fee inverted. */
  function GraduationInput(pool: LaunchLabPool, rate: nat, remaining: nat): Result<u64, LaunchLabError> {
    var x := pool.virtualQuote + pool.realQuote;
    var y := pool.virtualBase - pool.realBase;
    if y - remaining <= 0 then Failure(GraduationExhaustsReserve)
    else if x * remaining > U128_MAX then Failure(GraduationInputOverflow)
    else
      var requiredVault :- PreFeeAmount(DivCeil(x * remaining, y - remaining), rate);
      if requiredVault > U64_MAX then Failure(GraduationInputOverflow)
      else
        var actual := requiredVault + pool.quoteTransferFee.CalculateInverse(requiredVault);
        if actual > U64_MAX then Failure(GraduationInputOverflow) else Success(actual)
  }

  function Clamp(pool: LaunchLabPool, amountIn: u64, rate: nat, quoted: u128): Result<Fill, LaunchLabError> {
    if pool.totalBaseSell == 0 then Success(Fill(amountIn, quoted))
    else if pool.totalBaseSell < pool.realBase then Failure(Oversold)
    else
      var remaining := pool.totalBaseSell - pool.realBase;
      if quoted <= remaining then Success(Fill(amountIn, quoted))
      else
        var actual :- GraduationInput(pool, rate, remaining);
        Success(Fill(Min(actual, amountIn), remaining))
  }

  function BuyFill(pool: LaunchLabPool, amountIn: u64, shareFeeRate: u64): Result<Fill, LaunchLabError> {
    if amountIn == 0 then Failure(ZeroInput)
    else if pool.curveType != 0 then Failure(UnsupportedCurve)
    else
      var rate :- TotalFeeRate(pool, shareFeeRate);
      var curveInput :- CurveInput(pool, amountIn, rate);
      var quoted :- QuotedOutput(pool, curveInput);
      Clamp(pool, amountIn, rate, quoted)
  }

  /** The buy quote of `launchlab_buy_quote`. */
  function Buy(pool: LaunchLabPool, amountIn: u64, shareFeeRate: u64): Result<BuyQuote, LaunchLabError> {
    var fill :- BuyFill(pool, amountIn, shareFeeRate);
    if fill.grossOut > U64_MAX then Failure(OutputExceedsU64)
    else Success(BuyQuote(fill.amountIn, Max(0, pool.baseTransferFee.Net(fill.grossOut))))
  }

  /** The checks and curve step of a sell; the solvency check is the source's line 240. */
  function SellOnCurve(pool: LaunchLabPool, baseIn: u64): Result<SellFill, LaunchLabError> {
    var credit := pool.baseTransferFee.Net(baseIn);
    var x := pool.virtualBase - pool.realBase;
    var y := pool.virtualQuote + pool.realQuote;
    if baseIn == 0 then Failure(ZeroInput)
    else if pool.curveType != 0 then Failure(UnsupportedCurve)
    else if credit < 0 then Failure(TransferFeeExceedsInput)
    else if credit > pool.realBase then Failure(SellExceedsSold)
    else if x < 0 then Failure(ReserveUnderflow)
    else if y > U128_MAX then Failure(ReserveOverflow)
    else if x == 0 then Failure(InvalidReserves)
    else if x + credit > U128_MAX then Failure(ReserveOverflow)
    else if credit * y > U128_MAX then Failure(CurveOverflow)
    else
      CurveOutBelowReserve(x, y, credit);
      var gross := CurveOut(x, y, credit);
      if gross > pool.realQuote then Failure(RealQuoteCannotCover)
      else Success(SellFill(credit, gross))
  }

  /** The source's `fee_ceil`, whose product saturates at the u128 maximum. */
  function FeeCeil(amount: u128, rate: nat): (fee: nat)
    requires rate <= FEE_DENOM
    ensures fee <= CeilFee(amount, rate, FEE_DENOM) <= amount
    ensures amount * rate <= U128_MAX ==> fee == CeilFee(amount, rate, FEE_DENOM)
  {
    CeilFeeIsLipschitz(amount, amount, rate, FEE_DENOM);
    MulMono(0, amount, rate);
    CeilGalois(Min(amount * rate, U128_MAX), FEE_DENOM, CeilFee(amount, rate, FEE_DENOM));
    DivCeil(Min(amount * rate, U128_MAX), FEE_DENOM)
  }

  /** The sell quote of `launchlab_sell_quote_out`. */
  function Sell(pool: LaunchLabPool, baseIn: u64): Result<u64, LaunchLabError> {
    var fill :- SellOnCurve(pool, baseIn);
    var rate :- TotalFeeRate(pool, 0);
    var vaultOut := fill.gross - FeeCeil(fill.gross, rate);
    if vaultOut > U64_MAX then Failure(OutputExceedsU64)
    else Success(Max(0, pool.quoteTransferFee.Net(vaultOut)))
  }

  // ----- the graduation clamp -----

  ghost predicate Quotes(pool: LaunchLabPool, amountIn: u64, rate: nat, quoted: u128)
    requires rate <= FEE_DENOM
  {
    var c := CurveInput(pool, amountIn, rate);
    c.Success? && QuotedOutput(pool, c.value) == Success(quoted)
  }

  /** The input `g`, through transfer fee, pool fee and curve, buys at least `amount`. */
  ghost predicate BuysAtLeast(pool: LaunchLabPool, g: u64, rate: nat, amount: nat)
    requires rate <= FEE_DENOM
  {
    var c := CurveInput(pool, g, rate);
    c.Success? && var q := QuotedOutput(pool, c.value); q.Success? && amount <= q.value
  }

  /** A credited input that over-buys `remaining` bounds everything the clamp computes. */
  lemma RequiredCurveFits(pool: LaunchLabPool, curveInput: u64, remaining: nat)
    requires QuotedOutput(pool, curveInput).Success? && remaining < QuotedOutput(pool, curveInput).value
    ensures var x, y := pool.virtualQuote + pool.realQuote, pool.virtualBase - pool.realBase;
            && remaining < y
            && x * remaining <= U128_MAX
            && CurveIn(x, y, remaining) <= curveInput
  {
    var x, y := pool.virtualQuote + pool.realQuote, pool.virtualBase - pool.realBase;
    CurveOutBelowReserve(x, y, curveInput);
    CurveInIsLeast(x, y, remaining, curveInput);
    CurveOutReaches(x, y, curveInput, remaining);
    assert curveInput * (y - remaining) == curveInput * y - curveInput * remaining;
    MulMono(0, curveInput, remaining);
  }

  /** Below 100% the pool-fee inverse is the least vault input; it never saturates on a
      curve input that fits u64. */
  lemma PreFeeIsLeastGross(curve: nat, rate: nat)
    requires curve <= U64_MAX && rate < FEE_DENOM
    ensures PreFeeAmount(curve, rate) == Success(GrossOfNet(curve, rate, FEE_DENOM))
    ensures forall vault: nat :: curve <= NetOfFee(vault, rate, FEE_DENOM) <==> PreFeeAmount(curve, rate).value <= vault
  {
    forall vault: nat
      ensures curve <= NetOfFee(vault, rate, FEE_DENOM) <==> GrossOfNet(curve, rate, FEE_DENOM) <= vault
    {
      GrossOfNetIsLeast(curve, rate, FEE_DENOM, vault);
    }
  }

  /** The clamp's vault input, and what it costs the wallet. */
  lemma GraduationInputFits(pool: LaunchLabPool, amountIn: u64, rate: nat, remaining: nat, quoted: u128)
    requires rate < FEE_DENOM && Quotes(pool, amountIn, rate, quoted) && remaining < quoted
    ensures var x, y := pool.virtualQuote + pool.realQuote, pool.virtualBase - pool.realBase;
            && 0 < x && remaining < y
            && var vault := GrossOfNet(CurveIn(x, y, remaining), rate, FEE_DENOM);
               && vault <= pool.quoteTransferFee.Net(amountIn)
               && vault + pool.quoteTransferFee.CalculateInverse(vault) <= amountIn
               && GraduationInput(pool, rate, remaining)
                  == Success(vault + pool.quoteTransferFee.CalculateInverse(vault))
  {
    var x, y := pool.virtualQuote + pool.realQuote, pool.virtualBase - pool.realBase;
    RequiredCurveFits(pool, CurveInput(pool, amountIn, rate).value, remaining);
    var curve := CurveIn(x, y, remaining);
    PreFeeIsLeastGross(curve, rate);
    var vault := GrossOfNet(curve, rate, FEE_DENOM);
    GrossOfNetIsLeast(curve, rate, FEE_DENOM, pool.quoteTransferFee.Net(amountIn));
    InverseIsLeast(pool.quoteTransferFee, vault, amountIn);
  }

  /** The clamp's input is defined, needs no more than was offered, buys out the supply, and
      nothing smaller does. */
  lemma GraduationInputIsLeast(pool: LaunchLabPool, amountIn: u64, rate: nat, remaining: nat, quoted: u128)
    requires rate <= FEE_DENOM && Quotes(pool, amountIn, rate, quoted) && remaining < quoted
    ensures GraduationInput(pool, rate, remaining).Success?
    ensures var actual := GraduationInput(pool, rate, remaining).value;
            && actual <= amountIn
            && BuysAtLeast(pool, actual, rate, remaining)
            && (0 < actual <==> 0 < remaining)
            && forall g: u64 :: BuysAtLeast(pool, g, rate, remaining) ==> actual <= g
  {
    var x, y := pool.virtualQuote + pool.realQuote, pool.virtualBase - pool.realBase;
    ClampRateBelowFull(pool, amountIn, rate, quoted);
    GraduationInputFits(pool, amountIn, rate, remaining, quoted);
    var curve := CurveIn(x, y, remaining);
    var vault := GrossOfNet(curve, rate, FEE_DENOM);
    var actual := GraduationInput(pool, rate, remaining).value;
    InverseIsExact(pool.quoteTransferFee, vault);
    GrossOfNetIsLeast(curve, rate, FEE_DENOM, vault);
    SmallerInputQuotes(pool, amountIn, actual, rate);
    CurveInIsLeast(x, y, remaining, CurveInput(pool, actual, rate).value);
    ZeroSupplyNeedsNothing(x, y, remaining, rate);
    forall g: u64 | BuysAtLeast(pool, g, rate, remaining)
      ensures actual <= g
    {
      BuyingNeedsGraduationInput(pool, g, rate, remaining);
    }
  }

  /** At a 100% pool fee nothing reaches the curve, so nothing is over-bought. */
  lemma ClampRateBelowFull(pool: LaunchLabPool, amountIn: u64, rate: nat, quoted: u128)
    requires rate <= FEE_DENOM && Quotes(pool, amountIn, rate, quoted) && 0 < quoted
    ensures rate < FEE_DENOM
  {
    var offered := CurveInput(pool, amountIn, rate).value;
    var x, y := pool.virtualQuote + pool.realQuote, pool.virtualBase - pool.realBase;
    NetReaches(pool.quoteTransferFee.Net(amountIn), rate, FEE_DENOM, offered);
    if rate == FEE_DENOM {
      CurveOutReaches(x, y, 0, 1);
      assert false;
    }
  }

  /** A wallet debit whose curve share is no larger also passes the curve's range checks. */
  lemma SmallerInputQuotes(pool: LaunchLabPool, amountIn: u64, smaller: u64, rate: nat)
    requires rate <= FEE_DENOM && CurveInput(pool, amountIn, rate).Success?
    requires QuotedOutput(pool, CurveInput(pool, amountIn, rate).value).Success?
    requires 0 <= pool.quoteTransferFee.Net(smaller) <= pool.quoteTransferFee.Net(amountIn)
    ensures CurveInput(pool, smaller, rate).Success?
    ensures CurveInput(pool, smaller, rate).value <= CurveInput(pool, amountIn, rate).value
    ensures QuotedOutput(pool, CurveInput(pool, smaller, rate).value).Success?
  {
    NetOfFeeIsMonotone(pool.quoteTransferFee.Net(smaller), pool.quoteTransferFee.Net(amountIn), rate, FEE_DENOM);
    MulMono(CurveInput(pool, smaller, rate).value, CurveInput(pool, amountIn, rate).value,
            Max(0, pool.virtualBase - pool.realBase));
  }

  lemma ZeroSupplyNeedsNothing(x: nat, y: nat, remaining: nat, rate: nat)
    requires 0 < x && remaining < y && rate < FEE_DENOM
    ensures 0 < GrossOfNet(CurveIn(x, y, remaining), rate, FEE_DENOM) <==> 0 < remaining
  {
    CeilGalois(remaining * x, y - remaining, 0);
    CeilGalois(CurveIn(x, y, remaining) * FEE_DENOM, FEE_DENOM - rate, 0);
    if 0 < remaining {
      MulMono(1, remaining, x);
    }
  }

  /** Whatever buys out the supply carries at least the clamp's vault input and its inverse fee. */
  lemma BuyingNeedsGraduationInput(pool: LaunchLabPool, g: u64, rate: nat, remaining: nat)
    requires rate < FEE_DENOM && BuysAtLeast(pool, g, rate, remaining)
    requires remaining < pool.virtualBase - pool.realBase
    ensures var x, y := pool.virtualQuote + pool.realQuote, pool.virtualBase - pool.realBase;
            var vault := GrossOfNet(CurveIn(x, y, remaining), rate, FEE_DENOM);
            vault <= g && vault + pool.quoteTransferFee.CalculateInverse(vault) <= g
  {
    var x, y := pool.virtualQuote + pool.realQuote, pool.virtualBase - pool.realBase;
    var curve := CurveIn(x, y, remaining);
    CurveInIsLeast(x, y, remaining, CurveInput(pool, g, rate).value);
    GrossOfNetIsLeast(curve, rate, FEE_DENOM, pool.quoteTransferFee.Net(g));
    InverseIsLeast(pool.quoteTransferFee, GrossOfNet(curve, rate, FEE_DENOM), g);
  }

  /** The buy is well formed and its curve output exceeds the supply left to sell. */
  ghost predicate EntersClamp(pool: LaunchLabPool, amountIn: u64, shareFeeRate: u64) {
    var rate := TotalFeeRate(pool, shareFeeRate);
    && 0 < amountIn && pool.curveType == 0
    && 0 < pool.totalBaseSell && pool.realBase <= pool.totalBaseSell
    && rate.Success?
    && exists quoted: u128 ::
         Quotes(pool, amountIn, rate.value, quoted) && pool.totalBaseSell - pool.realBase < quoted
  }

  /** Entering the clamp never fails; the `min` with the offered input is inert; the returned
      input is the least one that buys out the supply. The only error left is a supply that
      does not fit the u64 result. */
  lemma ClampIsTight(pool: LaunchLabPool, amountIn: u64, shareFeeRate: u64)
    requires EntersClamp(pool, amountIn, shareFeeRate)
    ensures BuyFill(pool, amountIn, shareFeeRate).Success?
    ensures var fill := BuyFill(pool, amountIn, shareFeeRate).value;
            var rate := TotalFeeRate(pool, shareFeeRate).value;
            var remaining := pool.totalBaseSell - pool.realBase;
            && fill.grossOut == remaining
            && GraduationInput(pool, rate, remaining) == Success(fill.amountIn)
            && fill.amountIn <= amountIn
            && (0 < fill.amountIn <==> 0 < remaining)
            && BuysAtLeast(pool, fill.amountIn, rate, remaining)
            && forall g: u64 :: BuysAtLeast(pool, g, rate, remaining) ==> fill.amountIn <= g
    ensures Buy(pool, amountIn, shareFeeRate).Success?
            <==> pool.totalBaseSell - pool.realBase <= U64_MAX
  {
    var rate := TotalFeeRate(pool, shareFeeRate).value;
    var quoted := QuotedOutput(pool, CurveInput(pool, amountIn, rate).value).value;
    GraduationInputIsLeast(pool, amountIn, rate, pool.totalBaseSell - pool.realBase, quoted);
  }

  /** Quoting the returned input again gives the same quote, except on a curve already sold out,
      where the clamp returns a zero input that cannot be quoted. */
  lemma RequoteIsIdempotent(pool: LaunchLabPool, amountIn: u64, shareFeeRate: u64)
    requires Buy(pool, amountIn, shareFeeRate).Success?
    ensures var quote := Buy(pool, amountIn, shareFeeRate).value;
            Buy(pool, quote.amountIn, shareFeeRate) == Success(quote)
            <==> !(EntersClamp(pool, amountIn, shareFeeRate) && pool.realBase == pool.totalBaseSell)
  {
    var fill := BuyFill(pool, amountIn, shareFeeRate).value;
    var rate := TotalFeeRate(pool, shareFeeRate).value;
    var quoted := QuotedOutput(pool, CurveInput(pool, amountIn, rate).value).value;
    assert Quotes(pool, amountIn, rate, quoted);
    if EntersClamp(pool, amountIn, shareFeeRate) {
      ClampIsTight(pool, amountIn, shareFeeRate);
      if pool.realBase < pool.totalBaseSell {
        RequoteOfClampedFill(pool, fill, rate, shareFeeRate);
      }
    } else {
      assert fill.amountIn == amountIn;
    }
  }

  lemma RequoteOfClampedFill(pool: LaunchLabPool, fill: Fill, rate: nat, shareFeeRate: u64)
    requires TotalFeeRate(pool, shareFeeRate) == Success(rate) && pool.curveType == 0
    requires pool.realBase < pool.totalBaseSell && 0 < fill.amountIn
    requires fill.grossOut == pool.totalBaseSell - pool.realBase
    requires GraduationInput(pool, rate, fill.grossOut) == Success(fill.amountIn)
    requires BuysAtLeast(pool, fill.amountIn, rate, fill.grossOut)
    ensures BuyFill(pool, fill.amountIn, shareFeeRate) == Success(fill)
  {
  }
}
