/** Raydium CPMM quotes (crates/sdk/src/quote.rs:522-598). */
module Cpmm {
  import opened Wrappers
  import opened Arith
  import opened Curve
  import opened TransferFee

  const FEE_DENOM: nat := 1_000_000

  datatype CpmmPool = CpmmPool(
    baseReserve: u64,
    quoteReserve: u64,
    feeRatesKnown: bool,
    tradeFeeRate: u64,
    creatorFeeRate: u64,
    creatorFeeOn: u8,
    enableCreatorFee: bool,
    baseTransferFee: TokenTransferFee,
    quoteTransferFee: TokenTransferFee)
  {
    function InputReserve(inputIsBase: bool): u64 {
      if inputIsBase then baseReserve else quoteReserve
    }

    function OutputReserve(inputIsBase: bool): u64 {
      InputReserve(!inputIsBase)
    }

    function InputFee(inputIsBase: bool): TokenTransferFee {
      if inputIsBase then baseTransferFee else quoteTransferFee
    }

    function CreatorRate(): u64 {
      if enableCreatorFee then creatorFeeRate else 0
    }

    predicate FeesValid() {
      && tradeFeeRate + CreatorRate() < FEE_DENOM
      && baseTransferFee.basisPoints <= BPS
      && quoteTransferFee.basisPoints <= BPS
    }
  }

  datatype CpmmError =
    | FeeStateMissing
    | InvalidFeeConfig
    | ZeroInput
    | EmptyReserves
    | InputFeeExceedsAmount
    | ReserveOverflow
    | InvalidCreatorFeeOn
    | OutputExceedsReserve
    | Unreachable
    | InputExceedsU64

  /** The amounts a swap moves: credited to the input vault, priced by the curve, paid by the
      curve, debited from the output vault, and received by the user. */
  datatype Swap = Swap(credit: u64, curveIn: u64, curveOut: u64, debit: u64, received: u64)

  function CreatorFeeOnInput(pool: CpmmPool, inputIsBase: bool): Result<bool, CpmmError> {
    if !pool.enableCreatorFee || pool.creatorFeeRate == 0 then Success(true)
    else if pool.creatorFeeOn == 0 then Success(true)
    else if pool.creatorFeeOn == 1 then Success(inputIsBase)
    else if pool.creatorFeeOn == 2 then Success(!inputIsBase)
    else Failure(InvalidCreatorFeeOn)
  }

  /** The priced part of a swap, once its checks have passed. */
  function Price(pool: CpmmPool, credit: u64, inputIsBase: bool, onInput: bool): Swap
    requires pool.FeesValid() && 0 < pool.InputReserve(inputIsBase)
  {
    var y := pool.OutputReserve(inputIsBase);
    var inputRate := pool.tradeFeeRate + if onInput then pool.CreatorRate() else 0;
    var curveIn := NetOfFee(credit, inputRate, FEE_DENOM);
    CurveOutBelowReserve(pool.InputReserve(inputIsBase), y, curveIn);
    var curveOut := CurveOut(pool.InputReserve(inputIsBase), y, curveIn);
    var debit := if onInput then curveOut else NetOfFee(curveOut, pool.CreatorRate(), FEE_DENOM);
    NetIsMonotone(pool.InputFee(!inputIsBase), debit, debit);
    Swap(credit, curveIn, curveOut, debit, pool.InputFee(!inputIsBase).Net(debit))
  }

  function Quote(pool: CpmmPool, amountIn: u64, inputIsBase: bool): Result<Swap, CpmmError> {
    if !pool.feeRatesKnown then Failure(FeeStateMissing)
    else if !pool.FeesValid() then Failure(InvalidFeeConfig)
    else if amountIn == 0 then Failure(ZeroInput)
    else if pool.baseReserve == 0 || pool.quoteReserve == 0 then Failure(EmptyReserves)
    else
      var credit := pool.InputFee(inputIsBase).Net(amountIn);
      if credit < 0 then Failure(InputFeeExceedsAmount)
      else if pool.InputReserve(inputIsBase) + credit > U64_MAX then Failure(ReserveOverflow)
      else
        var onInput :- CreatorFeeOnInput(pool, inputIsBase);
        Success(Price(pool, credit, inputIsBase, onInput))
  }

  /** The quote of `cpmm_out`. */
  function Out(pool: CpmmPool, amountIn: u64, inputIsBase: bool): Result<u64, CpmmError> {
    var swap :- Quote(pool, amountIn, inputIsBase);
    Success(swap.received)
  }

  lemma PriceIsMonotone(pool: CpmmPool, a: u64, b: u64, inputIsBase: bool, onInput: bool)
    requires pool.FeesValid() && 0 < pool.InputReserve(inputIsBase) && a <= b
    ensures Price(pool, a, inputIsBase, onInput).received <= Price(pool, b, inputIsBase, onInput).received
  {
    var inputRate := pool.tradeFeeRate + if onInput then pool.CreatorRate() else 0;
    var pa, pb := Price(pool, a, inputIsBase, onInput), Price(pool, b, inputIsBase, onInput);
    NetOfFeeIsMonotone(a, b, inputRate, FEE_DENOM);
    CurveOutIsMonotone(pool.InputReserve(inputIsBase), pool.OutputReserve(inputIsBase), pa.curveIn, pb.curveIn);
    NetOfFeeIsMonotone(pa.curveOut, pb.curveOut, pool.CreatorRate(), FEE_DENOM);
    NetIsMonotone(pool.InputFee(!inputIsBase), pa.debit, pb.debit);
  }

  /** A smaller positive input quotes whenever a larger one does, and receives no more. */
  lemma OutIsMonotone(pool: CpmmPool, a: u64, b: u64, inputIsBase: bool)
    requires 0 < a <= b && Out(pool, b, inputIsBase).Success?
    ensures Out(pool, a, inputIsBase).Success?
    ensures Out(pool, a, inputIsBase).value <= Out(pool, b, inputIsBase).value
  {
    NetIsMonotone(pool.InputFee(inputIsBase), a, b);
    PriceIsMonotone(pool, pool.InputFee(inputIsBase).Net(a), pool.InputFee(inputIsBase).Net(b), inputIsBase,
                    CreatorFeeOnInput(pool, inputIsBase).value);
  }

  /** Every step of a quote shrinks: received <= debit <= curve output < output reserve, and the
      curve is fed no more than the vault credit, which is no more than the input. */
  lemma QuoteShrinks(pool: CpmmPool, amountIn: u64, inputIsBase: bool)
    requires Quote(pool, amountIn, inputIsBase).Success?
    ensures var s := Quote(pool, amountIn, inputIsBase).value;
            && s.received <= s.debit <= s.curveOut < pool.OutputReserve(inputIsBase)
            && s.curveIn <= s.credit <= amountIn
            && s.curveOut == CurveOut(pool.InputReserve(inputIsBase), pool.OutputReserve(inputIsBase), s.curveIn)
  {
    var s := Quote(pool, amountIn, inputIsBase).value;
    CurveOutBelowReserve(pool.InputReserve(inputIsBase), pool.OutputReserve(inputIsBase), s.curveIn);
  }

  /** Where the creator fee is charged: the base side takes it in mode 1, the quote side in mode 2,
      and the input side otherwise. */
  predicate CreatorFeeOnOutput(pool: CpmmPool, inputIsBase: bool) {
    && pool.enableCreatorFee && pool.creatorFeeRate != 0
    && ((pool.creatorFeeOn == 1 && !inputIsBase) || (pool.creatorFeeOn == 2 && inputIsBase))
  }

  /** Every unit of the input is transfer fee, pool fee or curve input, every unit of the curve output
      is creator fee, transfer fee or received, and the creator fee is charged on exactly one side. */
  lemma QuoteConserves(pool: CpmmPool, amountIn: u64, inputIsBase: bool)
    requires Quote(pool, amountIn, inputIsBase).Success?
    ensures var s := Quote(pool, amountIn, inputIsBase).value;
            var onOutput := CreatorFeeOnOutput(pool, inputIsBase);
            var creator := pool.CreatorRate();
            var inputRate := pool.tradeFeeRate + if onOutput then 0 else creator;
            && amountIn == s.curveIn + pool.InputFee(inputIsBase).Calculate(amountIn)
                           + CeilFee(s.credit, inputRate, FEE_DENOM)
            && s.curveOut == s.received + pool.InputFee(!inputIsBase).Calculate(s.debit)
                             + (if onOutput then CeilFee(s.curveOut, creator, FEE_DENOM) else 0)
  {
  }
}
