/** What a CPMM pool keeps over swaps and whole runs of swaps. */
module CpmmRuns {
  import opened Wrappers
  import opened Arith
  import opened Curve
  import opened Cpmm

  /** `next` is `pool` after `swap`. The input reserve grows by at least what the curve priced and
      at most the vault credit; the output reserve falls by at most the curve output and at least
      the vault debit. This covers reserves counted as vault balances and reserves that exclude
      protocol, fund and creator fees. */
  ghost predicate Moves(pool: CpmmPool, next: CpmmPool, swap: Swap, inputIsBase: bool) {
    && next == pool.(baseReserve := next.baseReserve, quoteReserve := next.quoteReserve)
    && pool.InputReserve(inputIsBase) + swap.curveIn
       <= next.InputReserve(inputIsBase)
       <= pool.InputReserve(inputIsBase) + swap.credit
    && pool.OutputReserve(inputIsBase) - swap.curveOut
       <= next.OutputReserve(inputIsBase)
       <= pool.OutputReserve(inputIsBase) - swap.debit
  }

  function Product(pool: CpmmPool): nat {
    Mul128(pool.baseReserve, pool.quoteReserve)
  }

  /** A swap never lowers the reserve product, and never empties a reserve. */
  lemma SwapKeepsProduct(pool: CpmmPool, next: CpmmPool, amountIn: u64, inputIsBase: bool)
    requires Quote(pool, amountIn, inputIsBase).Success?
    requires Moves(pool, next, Quote(pool, amountIn, inputIsBase).value, inputIsBase)
    ensures Product(pool) <= Product(next)
    ensures 0 < next.baseReserve && 0 < next.quoteReserve
  {
    var s := Quote(pool, amountIn, inputIsBase).value;
    var x, y := pool.InputReserve(inputIsBase), pool.OutputReserve(inputIsBase);
    QuoteShrinks(pool, amountIn, inputIsBase);
    ProductIsKept(x, y, s.curveIn, s.curveOut);
    GrowProduct(x + s.curveIn, next.InputReserve(inputIsBase), y - s.curveOut, next.OutputReserve(inputIsBase));
  }

  lemma GrowProduct(a: nat, a': nat, b: nat, b': nat)
    requires a <= a' && b <= b'
    ensures a * b <= a' * b' == b' * a'
  {
    MulMono(a, a', b);
    MulMono(b, b', a');
  }

  /** Swapping what was received straight back never returns more than the vault was credited,
      let alone more than was paid. */
  lemma RoundTripNeverProfits(pool: CpmmPool, next: CpmmPool, amountIn: u64, inputIsBase: bool)
    requires Quote(pool, amountIn, inputIsBase).Success?
    requires Moves(pool, next, Quote(pool, amountIn, inputIsBase).value, inputIsBase)
    ensures var there := Quote(pool, amountIn, inputIsBase).value;
            var back := Quote(next, there.received, !inputIsBase);
            back.Success? ==> back.value.received <= there.credit <= amountIn
  {
    var there := Quote(pool, amountIn, inputIsBase).value;
    var back := Quote(next, there.received, !inputIsBase);
    QuoteShrinks(pool, amountIn, inputIsBase);
    if back.Success? {
      QuoteShrinks(next, there.received, !inputIsBase);
      OutputWorth(pool.InputReserve(inputIsBase), pool.OutputReserve(inputIsBase), there.curveIn,
                  there.curveOut, there.credit, next.OutputReserve(inputIsBase));
      WorthBoundsReturn(pool.InputReserve(inputIsBase), there.credit, next.InputReserve(inputIsBase),
                        next.OutputReserve(inputIsBase), there.curveOut, back.value.curveIn);
    }
  }

  ghost predicate SwapStep(pool: CpmmPool, next: CpmmPool) {
    exists amountIn: u64, inputIsBase: bool ::
      && Quote(pool, amountIn, inputIsBase).Success?
      && Moves(pool, next, Quote(pool, amountIn, inputIsBase).value, inputIsBase)
  }

  ghost predicate IsRun(pools: seq<CpmmPool>) {
    0 < |pools| && forall i :: 0 < i < |pools| ==> SwapStep(pools[i - 1], pools[i])
  }

  /** Over every run of swaps, in either direction and any amounts, the product never falls. */
  lemma {:induction false} RunKeepsProduct(pools: seq<CpmmPool>)
    requires IsRun(pools)
    ensures Product(pools[0]) <= Product(pools[|pools| - 1])
  {
    var last := |pools| - 1;
    if 0 < last {
      RunKeepsProduct(pools[..last]);
      assert SwapStep(pools[last - 1], pools[last]);
      var amountIn: u64, inputIsBase :|
        && Quote(pools[last - 1], amountIn, inputIsBase).Success?
        && Moves(pools[last - 1], pools[last], Quote(pools[last - 1], amountIn, inputIsBase).value, inputIsBase);
      SwapKeepsProduct(pools[last - 1], pools[last], amountIn, inputIsBase);
    }
  }
}
