/** The exact-output CPMM quote, a search for the least sufficient input
    (crates/sdk/src/quote.rs:600-664). */
module CpmmSearch {
  import opened Wrappers
  import opened Arith
  import opened Curve
  import opened TransferFee
  import opened Cpmm
  import opened CpmmFields

  ghost predicate Reaches(pool: CpmmPool, amountIn: u64, amountOut: u64, inputIsBase: bool) {
    var out := Out(pool, amountIn, inputIsBase);
    out.Success? && amountOut <= out.value
  }

  /** Binary search for the largest gross input whose vault credit fits the capacity. */
  method LargestInputWithin(fee: TokenTransferFee, capacity: u64) returns (maxInput: u64)
    requires fee.basisPoints <= BPS
    ensures fee.Net(maxInput) <= capacity
    ensures forall a: u64 :: fee.Net(a) <= capacity <==> a <= maxInput
  {
    var maxLo, maxHi := 0, U64_MAX;
    while maxLo < maxHi
      invariant 0 <= maxLo <= maxHi <= U64_MAX
      invariant fee.Net(maxLo) <= capacity
      invariant forall a: u64 :: fee.Net(a) <= capacity ==> a <= maxHi
    {
      var distance := maxHi - maxLo;
      var mid := maxLo + distance / 2 + distance % 2;
      if fee.Net(mid) <= capacity {
        maxLo := mid;
      } else {
        forall a: u64 | mid <= a
          ensures fee.Net(a) > capacity
        {
          NetIsMonotone(fee, mid, a);
        }
        maxHi := mid - 1;
      }
    }
    forall a: u64 | a <= maxLo
      ensures fee.Net(a) <= capacity
    {
      NetIsMonotone(fee, a, maxLo);
    }
    return maxLo;
  }

  /** The feeless inverse is a lower bound on every sufficient input. */
  lemma NaiveIsLowerBound(pool: CpmmPool, amountIn: u64, amountOut: u64, inputIsBase: bool)
    requires 0 < amountOut && Reaches(pool, amountIn, amountOut, inputIsBase)
    ensures amountOut < pool.OutputReserve(inputIsBase)
    ensures CurveIn(pool.InputReserve(inputIsBase), pool.OutputReserve(inputIsBase), amountOut) <= amountIn
  {
    QuoteShrinks(pool, amountIn, inputIsBase);
    var s := Quote(pool, amountIn, inputIsBase).value;
    CurveInIsLeast(pool.InputReserve(inputIsBase), pool.OutputReserve(inputIsBase), amountOut, s.curveIn);
  }

  /** Once one unit quotes, an input quotes exactly when its vault credit fits. */
  lemma QuotesWithinCapacity(pool: CpmmPool, amountIn: u64, inputIsBase: bool)
    requires Out(pool, 1, inputIsBase).Success? && 0 < amountIn
    ensures Out(pool, amountIn, inputIsBase).Success?
            <==> pool.InputFee(inputIsBase).Net(amountIn) <= U64_MAX - pool.InputReserve(inputIsBase)
  {
    NetIsMonotone(pool.InputFee(inputIsBase), amountIn, amountIn);
  }

  /** What a sufficient input implies: none of the search's refusals apply. */
  lemma ReachableFacts(pool: CpmmPool, amountIn: u64, amountOut: u64, inputIsBase: bool)
    requires 0 < amountOut && Reaches(pool, amountIn, amountOut, inputIsBase)
    ensures amountOut < pool.OutputReserve(inputIsBase)
    ensures Out(pool, 1, inputIsBase).Success?
    ensures pool.InputFee(inputIsBase).Net(amountIn) <= U64_MAX - pool.InputReserve(inputIsBase)
    ensures Max(1, CurveIn(pool.InputReserve(inputIsBase), pool.OutputReserve(inputIsBase), amountOut)) <= amountIn
  {
    NaiveIsLowerBound(pool, amountIn, amountOut, inputIsBase);
    OutIsMonotone(pool, 1, amountIn, inputIsBase);
  }

  /** Everything between a reaching input and one that quotes reaches as well. */
  lemma ReachesUpwards(pool: CpmmPool, a: u64, b: u64, amountOut: u64, inputIsBase: bool)
    requires Reaches(pool, a, amountOut, inputIsBase) && a <= b && Out(pool, b, inputIsBase).Success?
    ensures Reaches(pool, b, amountOut, inputIsBase)
  {
    OutIsMonotone(pool, a, b, inputIsBase);
  }

  /** When the largest input that fits does not reach, none does. */
  lemma NothingReaches(pool: CpmmPool, amountOut: u64, inputIsBase: bool, maxInput: u64)
    requires 0 < amountOut && Out(pool, 1, inputIsBase).Success?
    requires forall a: u64 ::
               pool.InputFee(inputIsBase).Net(a) <= U64_MAX - pool.InputReserve(inputIsBase) <==> a <= maxInput
    requires maxInput == 0 || !Reaches(pool, maxInput, amountOut, inputIsBase)
    ensures !exists a: u64 :: Reaches(pool, a, amountOut, inputIsBase)
  {
    if a: u64 :| Reaches(pool, a, amountOut, inputIsBase) {
      ReachableFacts(pool, a, amountOut, inputIsBase);
      QuotesWithinCapacity(pool, maxInput, inputIsBase);
      ReachesUpwards(pool, a, maxInput, amountOut, inputIsBase);
    }
  }

  /** The doubling loop: widens `start` until it reaches, never past `maxInput`. */
  method Widen(pool: CpmmPool, amountOut: u64, inputIsBase: bool, start: u64, maxInput: u64)
    returns (hi: u64)
    requires 0 < start <= maxInput && Reaches(pool, maxInput, amountOut, inputIsBase)
    ensures start <= hi <= maxInput && Reaches(pool, hi, amountOut, inputIsBase)
  {
    hi := start;
    OutIsMonotone(pool, hi, maxInput, inputIsBase);
    while Out(pool, hi, inputIsBase).value < amountOut
      invariant start <= hi <= maxInput
      invariant Out(pool, hi, inputIsBase).Success?
      decreases maxInput - hi
    {
      hi := Min(Max(Min(hi * 2, U64_MAX), Min(hi + 1, U64_MAX)), maxInput);
      OutIsMonotone(pool, hi, maxInput, inputIsBase);
    }
  }

  /** The final bisection, between a lower bound of all reaching inputs and a reaching one. */
  method Bisect(pool: CpmmPool, amountOut: u64, inputIsBase: bool, low: u64, high: u64)
    returns (lo: u64)
    requires 0 < low <= high && Reaches(pool, high, amountOut, inputIsBase)
    requires forall a: u64 :: Reaches(pool, a, amountOut, inputIsBase) ==> low <= a
    ensures Reaches(pool, lo, amountOut, inputIsBase)
    ensures forall a: u64 :: Reaches(pool, a, amountOut, inputIsBase) ==> lo <= a
  {
    lo := low;
    var hi := high;
    while lo < hi
      invariant 0 < lo <= hi <= U64_MAX
      invariant Reaches(pool, hi, amountOut, inputIsBase)
      invariant forall a: u64 :: Reaches(pool, a, amountOut, inputIsBase) ==> lo <= a
    {
      var mid := lo + (hi - lo) / 2;
      OutIsMonotone(pool, mid, hi, inputIsBase);
      if Out(pool, mid, inputIsBase).value >= amountOut {
        hi := mid;
      } else {
        forall a: u64 | Reaches(pool, a, amountOut, inputIsBase)
          ensures mid < a
        {
          if a <= mid {
            ReachesUpwards(pool, a, mid, amountOut, inputIsBase);
          }
        }
        lo := mid + 1;
      }
    }
  }

  lemma ReachingIsDelivering(pool: CpmmPool, amountOut: u64, inputIsBase: bool)
    ensures forall a: u64 :: Reaches(pool, a, amountOut, inputIsBase) <==> Delivers(pool, a, amountOut, inputIsBase)
  {
    forall a: u64
      ensures Reaches(pool, a, amountOut, inputIsBase) <==> Delivers(pool, a, amountOut, inputIsBase)
    {
      DeliversExactly(pool, a, amountOut, inputIsBase);
    }
  }

  /** The source's `cpmm_in_for_out`: a positive target succeeds exactly when some input delivers
      it, with the least such input. */
  method InForOut(pool: CpmmPool, amountOut: u64, inputIsBase: bool) returns (r: Result<u64, CpmmError>)
    ensures amountOut == 0 ==> r == Success(0)
    ensures 0 < amountOut ==> (r.Success? <==> exists a: u64 :: Delivers(pool, a, amountOut, inputIsBase))
    ensures 0 < amountOut && r.Success? ==>
              && Delivers(pool, r.value, amountOut, inputIsBase)
              && forall a: u64 :: Delivers(pool, a, amountOut, inputIsBase) ==> r.value <= a
  {
    if amountOut == 0 {
      return Success(0);
    }
    ReachingIsDelivering(pool, amountOut, inputIsBase);
    forall a: u64 | Reaches(pool, a, amountOut, inputIsBase)
      ensures amountOut < pool.OutputReserve(inputIsBase)
      ensures Out(pool, 1, inputIsBase).Success?
      ensures pool.InputFee(inputIsBase).Net(a) <= U64_MAX - pool.InputReserve(inputIsBase)
      ensures Max(1, CurveIn(pool.InputReserve(inputIsBase), pool.OutputReserve(inputIsBase), amountOut)) <= a
    {
      ReachableFacts(pool, a, amountOut, inputIsBase);
    }
    var outputReserve := pool.OutputReserve(inputIsBase);
    if amountOut >= outputReserve {
      return Failure(OutputExceedsReserve);
    }
    var inputReserve := pool.InputReserve(inputIsBase);
    var unit := Out(pool, 1, inputIsBase);
    if unit.Failure? {
      return Failure(unit.error);
    }
    QuotesWithinCapacity(pool, 1, inputIsBase);
    var maxInput := LargestInputWithin(pool.InputFee(inputIsBase), U64_MAX - inputReserve);
    QuotesWithinCapacity(pool, maxInput, inputIsBase);
    if maxInput == 0 || Out(pool, maxInput, inputIsBase).value < amountOut {
      NothingReaches(pool, amountOut, inputIsBase, maxInput);
      return Failure(Unreachable);
    }
    var naive := DivCeil(Mul128(amountOut, inputReserve), outputReserve - amountOut);
    assert naive <= maxInput;
    if naive > U64_MAX {
      return Failure(InputExceedsU64);
    }
    var lo := Max(naive, 1);
    var hi := Min(Min(Min(lo * 2, U64_MAX) + 10_000, U64_MAX), maxInput);
    hi := Widen(pool, amountOut, inputIsBase, hi, maxInput);
    lo := Bisect(pool, amountOut, inputIsBase, lo, hi);
    return Success(lo);
  }
}
