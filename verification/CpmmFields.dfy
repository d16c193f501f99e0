/** What a CPMM quote means on the fields of the pool, for each direction
    (crates/sdk/src/quote.rs:522-664). */
module CpmmFields {
  import opened Wrappers
  import opened Arith
  import opened Curve
  import opened TransferFee
  import opened Cpmm

  /** The swap that `amountIn` makes between an input reserve `x` and an output reserve `y`. */
  ghost predicate Follows(s: Swap, amountIn: u64, x: u64, y: u64, inFee: TokenTransferFee, outFee: TokenTransferFee,
                          inputRate: nat, outputRate: nat) {
    && Charges(inFee, amountIn, amountIn - s.credit)
    && s.curveIn == s.credit - DivCeil(s.credit * inputRate, 1_000_000)
    && IsQuotient(s.curveOut, s.curveIn * y, x + s.curveIn)
    && s.debit == s.curveOut - DivCeil(s.curveOut * outputRate, 1_000_000)
    && Charges(outFee, s.debit, s.debit - s.received)
  }

  /** The pool quotes at all, in either direction. */
  predicate Quotable(pool: CpmmPool) {
    && pool.feeRatesKnown && 0 < pool.baseReserve && 0 < pool.quoteReserve
    && pool.tradeFeeRate + (if pool.enableCreatorFee then pool.creatorFeeRate else 0) < 1_000_000
    && pool.baseTransferFee.basisPoints <= 10_000 && pool.quoteTransferFee.basisPoints <= 10_000
    && (pool.enableCreatorFee && 0 < pool.creatorFeeRate ==> pool.creatorFeeOn <= 2)
  }

  /** Base in, quote out; the creator fee is taken from the quote in mode 2, else from the base. */
  ghost predicate BaseIn(pool: CpmmPool, amountIn: u64, s: Swap) {
    var creator := if pool.enableCreatorFee then pool.creatorFeeRate else 0;
    && Quotable(pool) && 0 < amountIn && pool.baseReserve + s.credit <= U64_MAX
    && Follows(s, amountIn, pool.baseReserve, pool.quoteReserve, pool.baseTransferFee, pool.quoteTransferFee,
               pool.tradeFeeRate + (if pool.creatorFeeOn == 2 then 0 else creator),
               if pool.creatorFeeOn == 2 then creator else 0)
  }

  /** Quote in, base out; the creator fee is taken from the base in mode 1, else from the quote. */
  ghost predicate QuoteIn(pool: CpmmPool, amountIn: u64, s: Swap) {
    var creator := if pool.enableCreatorFee then pool.creatorFeeRate else 0;
    && Quotable(pool) && 0 < amountIn && pool.quoteReserve + s.credit <= U64_MAX
    && Follows(s, amountIn, pool.quoteReserve, pool.baseReserve, pool.quoteTransferFee, pool.baseTransferFee,
               pool.tradeFeeRate + (if pool.creatorFeeOn == 1 then 0 else creator),
               if pool.creatorFeeOn == 1 then creator else 0)
  }

  /** The same, as the quote computes it. */
  predicate Computes(s: Swap, amountIn: u64, x: u64, y: u64, inFee: TokenTransferFee, outFee: TokenTransferFee,
                     inputRate: nat, outputRate: nat)
    requires 0 < x && inputRate < 1_000_000 && outputRate < 1_000_000
  {
    && s.credit == inFee.Net(amountIn)
    && s.curveIn == NetOfFee(s.credit, inputRate, 1_000_000)
    && s.curveOut == CurveOut(x, y, s.curveIn)
    && s.debit == NetOfFee(s.curveOut, outputRate, 1_000_000)
    && s.received == outFee.Net(s.debit)
  }

  lemma ComputesExactly(s: Swap, amountIn: u64, x: u64, y: u64, inFee: TokenTransferFee, outFee: TokenTransferFee,
                        inputRate: nat, outputRate: nat)
    requires 0 < x && inputRate < 1_000_000 && outputRate < 1_000_000
    ensures Follows(s, amountIn, x, y, inFee, outFee, inputRate, outputRate)
            <==> Computes(s, amountIn, x, y, inFee, outFee, inputRate, outputRate)
  {
    ChargesExactly(inFee, amountIn, amountIn - s.credit);
    ChargesExactly(outFee, s.debit, s.debit - s.received);
    CurveOutExactly(x, y, s.curveIn, s.curveOut);
  }

  lemma NoFeeTakesNothing(amount: nat)
    ensures NetOfFee(amount, 0, 1_000_000) == amount
  {
    CeilGalois(0, 1_000_000, 0);
  }

  /** When a quote is a priced swap at all. */
  lemma QuotesExactly(pool: CpmmPool, amountIn: u64, inputIsBase: bool, s: Swap)
    ensures var credit := pool.InputFee(inputIsBase).Net(amountIn);
            Quote(pool, amountIn, inputIsBase) == Success(s)
            <==> && Quotable(pool) && 0 < amountIn && 0 <= credit && pool.InputReserve(inputIsBase) + credit <= U64_MAX
                 && s == Price(pool, credit, inputIsBase, !CreatorFeeOnOutput(pool, inputIsBase))
  {
  }

  lemma ComputesOnce(s: Swap, t: Swap, amountIn: u64, x: u64, y: u64, inFee: TokenTransferFee,
                     outFee: TokenTransferFee, inputRate: nat, outputRate: nat)
    requires 0 < x && inputRate < 1_000_000 && outputRate < 1_000_000
    requires Computes(t, amountIn, x, y, inFee, outFee, inputRate, outputRate)
    ensures Computes(s, amountIn, x, y, inFee, outFee, inputRate, outputRate) <==> s == t
  {
  }

  /** The priced swap computes from the two sides. */
  lemma PriceComputes(pool: CpmmPool, amountIn: u64, inputIsBase: bool, onInput: bool)
    requires Quotable(pool) && 0 <= pool.InputFee(inputIsBase).Net(amountIn)
    ensures Computes(Price(pool, pool.InputFee(inputIsBase).Net(amountIn), inputIsBase, onInput), amountIn,
                     pool.InputReserve(inputIsBase), pool.OutputReserve(inputIsBase), pool.InputFee(inputIsBase),
                     pool.InputFee(!inputIsBase), pool.tradeFeeRate + (if onInput then pool.CreatorRate() else 0),
                     if onInput then 0 else pool.CreatorRate())
  {
    NoFeeTakesNothing(Price(pool, pool.InputFee(inputIsBase).Net(amountIn), inputIsBase, onInput).curveOut);
  }

  /** A base-in quote succeeds with a swap exactly when the pool's fields say so. */
  lemma BaseInExactly(pool: CpmmPool, amountIn: u64, s: Swap)
    ensures Quote(pool, amountIn, true) == Success(s) <==> BaseIn(pool, amountIn, s)
  {
    QuotesExactly(pool, amountIn, true, s);
    if Quotable(pool) {
      NetIsMonotone(pool.baseTransferFee, amountIn, amountIn);
      var onInput := !CreatorFeeOnOutput(pool, true);
      var inputRate := pool.tradeFeeRate + if onInput then pool.CreatorRate() else 0;
      var outputRate := if onInput then 0 else pool.CreatorRate();
      ComputesExactly(s, amountIn, pool.baseReserve, pool.quoteReserve, pool.baseTransferFee, pool.quoteTransferFee,
                      inputRate, outputRate);
      if 0 <= pool.baseTransferFee.Net(amountIn) {
        PriceComputes(pool, amountIn, true, onInput);
        ComputesOnce(s, Price(pool, pool.baseTransferFee.Net(amountIn), true, onInput), amountIn, pool.baseReserve,
                     pool.quoteReserve, pool.baseTransferFee, pool.quoteTransferFee, inputRate, outputRate);
      }
    }
  }

  /** And so does a quote-in one. */
  lemma QuoteInExactly(pool: CpmmPool, amountIn: u64, s: Swap)
    ensures Quote(pool, amountIn, false) == Success(s) <==> QuoteIn(pool, amountIn, s)
  {
    QuotesExactly(pool, amountIn, false, s);
    if Quotable(pool) {
      NetIsMonotone(pool.quoteTransferFee, amountIn, amountIn);
      var onInput := !CreatorFeeOnOutput(pool, false);
      var inputRate := pool.tradeFeeRate + if onInput then pool.CreatorRate() else 0;
      var outputRate := if onInput then 0 else pool.CreatorRate();
      ComputesExactly(s, amountIn, pool.quoteReserve, pool.baseReserve, pool.quoteTransferFee, pool.baseTransferFee,
                      inputRate, outputRate);
      if 0 <= pool.quoteTransferFee.Net(amountIn) {
        PriceComputes(pool, amountIn, false, onInput);
        ComputesOnce(s, Price(pool, pool.quoteTransferFee.Net(amountIn), false, onInput), amountIn, pool.quoteReserve,
                     pool.baseReserve, pool.quoteTransferFee, pool.baseTransferFee, inputRate, outputRate);
      }
    }
  }

  /** What the user receives of such a swap is the quote. */
  lemma SwapIsQuoted(pool: CpmmPool, amountIn: u64, s: Swap)
    ensures BaseIn(pool, amountIn, s) ==> Out(pool, amountIn, true) == Success(s.received)
    ensures QuoteIn(pool, amountIn, s) ==> Out(pool, amountIn, false) == Success(s.received)
  {
    BaseInExactly(pool, amountIn, s);
    QuoteInExactly(pool, amountIn, s);
  }

  /** The input is quoted at least `amountOut`. */
  ghost predicate Delivers(pool: CpmmPool, amountIn: u64, amountOut: u64, inputIsBase: bool) {
    if inputIsBase then exists s: Swap :: BaseIn(pool, amountIn, s) && amountOut <= s.received
    else exists s: Swap :: QuoteIn(pool, amountIn, s) && amountOut <= s.received
  }

  lemma DeliversExactly(pool: CpmmPool, amountIn: u64, amountOut: u64, inputIsBase: bool)
    ensures var out := Out(pool, amountIn, inputIsBase);
            Delivers(pool, amountIn, amountOut, inputIsBase) <==> out.Success? && amountOut <= out.value
  {
    forall s: Swap
      ensures Quote(pool, amountIn, true) == Success(s) <==> BaseIn(pool, amountIn, s)
      ensures Quote(pool, amountIn, false) == Success(s) <==> QuoteIn(pool, amountIn, s)
    {
      BaseInExactly(pool, amountIn, s);
      QuoteInExactly(pool, amountIn, s);
    }
  }
}
