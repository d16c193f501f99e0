/** Raydium AMM V4 quotes and their closed-form inverse (crates/sdk/src/quote.rs:791-862). */
module AmmV4 {
  import opened Wrappers
  import opened Arith
  import opened Curve

  datatype AmmV4Pool = AmmV4Pool(
    coinReserve: u64,
    pcReserve: u64,
    swapFeeNumerator: u64,
    swapFeeDenominator: u64)
  {
    function InputReserve(inputIsCoin: bool): u64 {
      if inputIsCoin then coinReserve else pcReserve
    }

    function OutputReserve(inputIsCoin: bool): u64 {
      InputReserve(!inputIsCoin)
    }

    predicate FeeValid() {
      swapFeeNumerator < swapFeeDenominator
    }
  }

  datatype AmmV4Error =
    | ZeroAmount
    | EmptyReserves
    | InvalidFee
    | ReserveOverflow
    | OutputExceedsReserve
    | NetInputExceedsU64
    | GrossInputExceedsU64
    | CannotReachTarget

  function Out(pool: AmmV4Pool, amountIn: u64, inputIsCoin: bool): Result<u64, AmmV4Error> {
    var x, y := pool.InputReserve(inputIsCoin), pool.OutputReserve(inputIsCoin);
    if amountIn == 0 then Failure(ZeroAmount)
    else if x == 0 || y == 0 then Failure(EmptyReserves)
    else if !pool.FeeValid() then Failure(InvalidFee)
    else if x + amountIn > U64_MAX then Failure(ReserveOverflow)
    else
      var net := NetOfFee(amountIn, pool.swapFeeNumerator, pool.swapFeeDenominator);
      CurveOutBelowReserve(x, y, net);
      Success(CurveOut(x, y, net))
  }

  function InForOut(pool: AmmV4Pool, amountOut: u64, inputIsCoin: bool): Result<u64, AmmV4Error> {
    var x, y := pool.InputReserve(inputIsCoin), pool.OutputReserve(inputIsCoin);
    if amountOut == 0 then Failure(ZeroAmount)
    else if x == 0 || y == 0 then Failure(EmptyReserves)
    else if amountOut >= y then Failure(OutputExceedsReserve)
    else
      var netIn := DivCeil(Mul128(amountOut, x), y - amountOut);
      if !pool.FeeValid() then Failure(InvalidFee)
      else if netIn > U64_MAX then Failure(NetInputExceedsU64)
      else
        var num, den := pool.swapFeeNumerator, pool.swapFeeDenominator;
        var amountIn := DivCeil(Mul128(netIn, den), den - num);
        if amountIn > U64_MAX then Failure(GrossInputExceedsU64)
        else
          var check :- Out(pool, amountIn, inputIsCoin);
          if check < amountOut then Failure(CannotReachTarget) else Success(amountIn)
  }

  ghost predicate Reaches(pool: AmmV4Pool, amountIn: u64, amountOut: u64, inputIsCoin: bool) {
    var out := Out(pool, amountIn, inputIsCoin);
    out.Success? && amountOut <= out.value
  }

  /** An input that quotes reaches the target exactly from the closed-form input upwards. */
  lemma ReachesFromClosedForm(pool: AmmV4Pool, amountIn: u64, amountOut: u64, inputIsCoin: bool)
    requires Out(pool, amountIn, inputIsCoin).Success?
    ensures var x, y := pool.InputReserve(inputIsCoin), pool.OutputReserve(inputIsCoin);
            Reaches(pool, amountIn, amountOut, inputIsCoin)
            <==> amountOut < y && GrossOfNet(CurveIn(x, y, amountOut), pool.swapFeeNumerator, pool.swapFeeDenominator)
                                  <= amountIn
  {
    var x, y := pool.InputReserve(inputIsCoin), pool.OutputReserve(inputIsCoin);
    var net := NetOfFee(amountIn, pool.swapFeeNumerator, pool.swapFeeDenominator);
    CurveOutBelowReserve(x, y, net);
    if amountOut < y {
      CurveInIsLeast(x, y, amountOut, net);
      GrossOfNetIsLeast(CurveIn(x, y, amountOut), pool.swapFeeNumerator, pool.swapFeeDenominator, amountIn);
    }
  }

  /** The closed-form input of a positive target is positive, and at least its own net. */
  lemma ClosedFormBounds(x: nat, y: nat, amountOut: nat, num: nat, den: nat)
    requires 0 < x && 0 < amountOut < y && num < den
    ensures 0 < CurveIn(x, y, amountOut) <= GrossOfNet(CurveIn(x, y, amountOut), num, den)
  {
    var net := CurveIn(x, y, amountOut);
    MulMono(1, amountOut, x);
    CeilGalois(amountOut * x, y - amountOut, 0);
    CeilGalois(net * den, den - num, net - 1);
    assert (net - 1) * (den - num) <= net * den - (den - num) by {
      MulMono(den - num, den, net - 1);
      assert (net - 1) * den == net * den - den;
    }
  }

  /** What `amountIn` buys from a reserve `y` against a reserve `x`, after the pool's fee. */
  ghost predicate Buys(pool: AmmV4Pool, amountIn: u64, x: u64, y: u64, out: int) {
    && 0 < amountIn && 0 < x && 0 < y && x + amountIn <= U64_MAX
    && pool.swapFeeNumerator < pool.swapFeeDenominator
    && var net := amountIn - DivCeil(amountIn * pool.swapFeeNumerator, pool.swapFeeDenominator);
       IsQuotient(out, net * y, x + net)
  }

  /** Coin in buys pc out, and pc in buys coin out; nothing else is quoted. */
  lemma OutExactly(pool: AmmV4Pool, amountIn: u64, out: u64)
    ensures Out(pool, amountIn, true) == Success(out) <==> Buys(pool, amountIn, pool.coinReserve, pool.pcReserve, out)
    ensures Out(pool, amountIn, false) == Success(out) <==> Buys(pool, amountIn, pool.pcReserve, pool.coinReserve, out)
  {
    if 0 < pool.coinReserve && 0 < pool.pcReserve && pool.FeeValid() {
      var net := NetOfFee(amountIn, pool.swapFeeNumerator, pool.swapFeeDenominator);
      CurveOutExactly(pool.coinReserve, pool.pcReserve, net, out);
      CurveOutExactly(pool.pcReserve, pool.coinReserve, net, out);
    }
  }

  /** The input is quoted at least `amountOut`. */
  ghost predicate Delivers(pool: AmmV4Pool, amountIn: u64, amountOut: u64, inputIsCoin: bool) {
    if inputIsCoin then
      exists out: u64 :: Buys(pool, amountIn, pool.coinReserve, pool.pcReserve, out) && amountOut <= out
    else
      exists out: u64 :: Buys(pool, amountIn, pool.pcReserve, pool.coinReserve, out) && amountOut <= out
  }

  lemma ReachingIsDelivering(pool: AmmV4Pool, amountOut: u64, inputIsCoin: bool)
    ensures forall a: u64 :: Reaches(pool, a, amountOut, inputIsCoin) <==> Delivers(pool, a, amountOut, inputIsCoin)
  {
    forall a: u64
      ensures Reaches(pool, a, amountOut, inputIsCoin) <==> Delivers(pool, a, amountOut, inputIsCoin)
    {
      forall out: u64
        ensures Out(pool, a, true) == Success(out) <==> Buys(pool, a, pool.coinReserve, pool.pcReserve, out)
        ensures Out(pool, a, false) == Success(out) <==> Buys(pool, a, pool.pcReserve, pool.coinReserve, out)
      {
        OutExactly(pool, a, out);
      }
    }
  }

  lemma InForOutIsLeastReaching(pool: AmmV4Pool, amountOut: u64, inputIsCoin: bool)
    requires 0 < amountOut
    ensures var r := InForOut(pool, amountOut, inputIsCoin);
            && (r.Success? <==> exists a: u64 :: Reaches(pool, a, amountOut, inputIsCoin))
            && (r.Success? ==>
                  && Reaches(pool, r.value, amountOut, inputIsCoin)
                  && forall a: u64 :: Reaches(pool, a, amountOut, inputIsCoin) ==> r.value <= a)
            && r != Failure(CannotReachTarget)
  {
    var x, y := pool.InputReserve(inputIsCoin), pool.OutputReserve(inputIsCoin);
    var num, den := pool.swapFeeNumerator, pool.swapFeeDenominator;
    forall a: u64 | Reaches(pool, a, amountOut, inputIsCoin)
      ensures 0 < x && amountOut < y && pool.FeeValid()
      ensures GrossOfNet(CurveIn(x, y, amountOut), num, den) <= a && x + a <= U64_MAX
    {
      ReachesFromClosedForm(pool, a, amountOut, inputIsCoin);
    }
    if 0 < x && amountOut < y && pool.FeeValid() {
      ClosedFormBounds(x, y, amountOut, num, den);
      var amountIn := GrossOfNet(CurveIn(x, y, amountOut), num, den);
      if amountIn <= U64_MAX && x + amountIn <= U64_MAX {
        ReachesFromClosedForm(pool, amountIn, amountOut, inputIsCoin);
      }
    }
  }

  /** The inverse succeeds exactly when some input delivers the target within the vault's capacity;
      it is then the least one. Its last check can never fail. */
  lemma InForOutIsLeastAndComplete(pool: AmmV4Pool, amountOut: u64, inputIsCoin: bool)
    requires 0 < amountOut
    ensures var r := InForOut(pool, amountOut, inputIsCoin);
            && (r.Success? <==> exists a: u64 :: Delivers(pool, a, amountOut, inputIsCoin))
            && (r.Success? ==>
                  && Delivers(pool, r.value, amountOut, inputIsCoin)
                  && forall a: u64 :: Delivers(pool, a, amountOut, inputIsCoin) ==> r.value <= a)
            && r != Failure(CannotReachTarget)
  {
    ReachingIsDelivering(pool, amountOut, inputIsCoin);
    InForOutIsLeastReaching(pool, amountOut, inputIsCoin);
  }
}
