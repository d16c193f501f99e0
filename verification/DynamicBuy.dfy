/** WSOL to a quote token to a target mint, over explicit pools (crates/sdk/src/dynamic.rs). */
module DynamicBuy {
  import opened Wrappers
  import opened Arith
  import opened Bytes
  import opened Keys
  import opened DynamicLeg
  import opened Legs
  import opened LegSlots
  import opened LegAccounts
  import opened RouteCodec
  import opened RouteIx

  datatype Market =
    | LaunchLabInner(launchLab: LaunchLabKeys)
    | CpmmOuter(cpmm: CpmmKeys)
    | PumpSwapOuter(pumpSwap: PumpSwapKeys)
    | RaydiumAmmV4(ammV4: AmmV4Keys)
    | RaydiumClmm(clmm: ClmmKeys)
    | Whirlpool(whirlpool: WhirlpoolKeys)
    | MeteoraDlmm(dlmm: DlmmKeys)
    | MeteoraDammV2(damm: DammKeys)
    | OtherMarket

  datatype BuyError =
    | FirstAmountOutOfBudget
    | PoolLacksWsol
    | WsolNotClassic
    | NotExactIn
    | UnsupportedMarket
    | FirstHopMismatch
    | LegFailed(leg: LegError)
    | RouteFailed(route: RouteError)

  /** A leg and the token it delivers. */
  datatype Hop = Hop(leg: Leg, output: Token)

  const WSOL: Token := Token(WSOL_MINT, TOKEN_PROGRAM)

  function WithLeg(leg: Result<Leg, LegError>, output: Token): Result<Hop, BuyError> {
    match leg
    case Success(l) => Success(Hop(l, output))
    case Failure(e) => Failure(LegFailed(e))
  }

  /** The other token of a pair with WSOL; a pool pairing WSOL with itself is refused, and so is
      WSOL under another program than the classic one. */
  function OtherThanWsol(a: Token, b: Token): Result<Token, BuyError> {
    if (WSOL_MINT != a.mint && WSOL_MINT != b.mint) || a.mint == b.mint then Failure(PoolLacksWsol)
    else if (if a.mint == WSOL_MINT then a else b).program != TOKEN_PROGRAM then Failure(WsolNotClassic)
    else Success(if a.mint == WSOL_MINT then b else a)
  }

  /** A CPMM pool's other token, by `other_mint` and `token_program_for`. */
  function CpmmOther(p: CpmmKeys, mint: Pubkey): Option<Token> {
    var other := if mint == p.baseMint then p.quoteMint else p.baseMint;
    if mint != p.baseMint && mint != p.quoteMint then None
    else Some(Token(other, CpmmProgram(p, other)))
  }

  function CpmmProgram(p: CpmmKeys, mint: Pubkey): Pubkey {
    if mint == p.baseMint then p.baseProgram else p.quoteProgram
  }

  function CpmmHop(d: Derivation, user: Pubkey, p: CpmmKeys, input: Token, output: Token, amountIn: u64, minOut: u64):
    Result<Hop, BuyError>
  {
    WithLeg(CpmmSwapLeg(user, p, amountIn, minOut, input.mint, output.mint, UserAta(d, user, input),
                        UserAta(d, user, output)), output)
  }

  function WsolToQuoteLeg(d: Derivation, user: Pubkey, pool: Market, amountIn: u64, minOut: u64): Result<Hop, BuyError>
  {
    match pool
    case CpmmOuter(p) =>
      if CpmmOther(p, WSOL_MINT).None? then Failure(PoolLacksWsol)
      else if CpmmProgram(p, WSOL_MINT) != TOKEN_PROGRAM then Failure(WsolNotClassic)
      else CpmmHop(d, user, p, WSOL, CpmmOther(p, WSOL_MINT).value, amountIn, minOut)
    case RaydiumAmmV4(p) =>
      if p.tokenProgram != TOKEN_PROGRAM then Failure(WsolNotClassic)
      else
        var quote :- OtherThanWsol(Token(p.coinMint, p.tokenProgram), Token(p.pcMint, p.tokenProgram));
        WithLeg(AmmV4SwapLeg(d, user, p, amountIn, minOut, WSOL_MINT), quote)
    case RaydiumClmm(p) =>
      var quote :- OtherThanWsol(Token(p.mint0, p.program0), Token(p.mint1, p.program1));
      WithLeg(ClmmSwapLeg(d, user, p, amountIn, minOut, WSOL_MINT), quote)
    case Whirlpool(p) =>
      var quote :- OtherThanWsol(Token(p.mintA, p.programA), Token(p.mintB, p.programB));
      WithLeg(WhirlpoolSwapLeg(d, user, p, amountIn, minOut, WSOL_MINT), quote)
    case MeteoraDlmm(p) =>
      var quote :- OtherThanWsol(Token(p.mintX, p.programX), Token(p.mintY, p.programY));
      WithLeg(DlmmSwapLeg(d, user, p, amountIn, minOut, WSOL_MINT), quote)
    case MeteoraDammV2(p) =>
      if p.swapMode != METEORA_DAMM_V2_EXACT_IN then Failure(NotExactIn)
      else
        var quote :- OtherThanWsol(Token(p.mintA, p.programA), Token(p.mintB, p.programB));
        WithLeg(DammSwapLeg(d, user, p, amountIn, minOut, WSOL_MINT), quote)
    case PumpSwapOuter(p) =>
      if Token(p.quoteMint, p.quoteProgram) == WSOL then
        WithLeg(PumpSwapBuyLeg(d, user, p, amountIn, minOut), Token(p.baseMint, p.baseProgram))
      else if Token(p.baseMint, p.baseProgram) == WSOL then
        WithLeg(PumpSwapSellLeg(d, user, p, amountIn, minOut), Token(p.quoteMint, p.quoteProgram))
      else Failure(PoolLacksWsol)
    case _ => Failure(UnsupportedMarket)
  }

  /** The second hop, built with a placeholder input of one unit. */
  function QuoteToTargetLeg(d: Derivation, user: Pubkey, pool: Market, quote: Token, minOut: u64): Result<Hop, BuyError>
  {
    match pool
    case PumpSwapOuter(p) =>
      if Token(p.quoteMint, p.quoteProgram) == quote then
        WithLeg(PumpSwapBuyLeg(d, user, p, 1, minOut), Token(p.baseMint, p.baseProgram))
      else if Token(p.baseMint, p.baseProgram) == quote then
        WithLeg(PumpSwapSellLeg(d, user, p, 1, minOut), Token(p.quoteMint, p.quoteProgram))
      else Failure(FirstHopMismatch)
    case LaunchLabInner(p) =>
      var base := Token(p.baseMint, p.baseProgram);
      if !MintProgramValid(base) || !MintProgramValid(Token(p.quoteMint, p.quoteProgram)) then
        Failure(LegFailed(UnsupportedTokenProgram))
      else if Token(p.quoteMint, p.quoteProgram) != quote then Failure(FirstHopMismatch)
      else Success(Hop(LaunchLabBuyLeg(user, p, 1, minOut, UserAta(d, user, base), UserAta(d, user, quote)), base))
    case CpmmOuter(p) =>
      if CpmmOther(p, quote.mint).None? || CpmmProgram(p, quote.mint) != quote.program then Failure(FirstHopMismatch)
      else CpmmHop(d, user, p, quote, CpmmOther(p, quote.mint).value, 1, minOut)
    case _ => Failure(UnsupportedMarket)
  }

  datatype DynamicBuyRoute = DynamicBuyRoute(instruction: Instruction, quote: Token, output: Token)

  /** The source's `build_dynamic_quote_buy`. */
  function BuildDynamicQuoteBuy(d: Derivation, programId: Pubkey, config: Pubkey, payer: Pubkey, feeRecipient: Pubkey,
                                routeAmountIn: u64, firstLegAmountIn: u64, quoteMinOut: u64, minTargetOut: u64,
                                quotePool: Market, targetPool: Market): Result<DynamicBuyRoute, BuyError>
  {
    if firstLegAmountIn == 0 || firstLegAmountIn > routeAmountIn then Failure(FirstAmountOutOfBudget)
    else
      var first :- WsolToQuoteLeg(d, payer, quotePool, firstLegAmountIn, quoteMinOut);
      var second :- QuoteToTargetLeg(d, payer, targetPool, first.output, minTargetOut);
      JoinHops(d, programId, config, payer, feeRecipient, routeAmountIn, quoteMinOut, minTargetOut, first, second)
  }

  /** The final step: the route instruction over two built hops. */
  function JoinHops(d: Derivation, programId: Pubkey, config: Pubkey, payer: Pubkey, feeRecipient: Pubkey,
                    routeAmountIn: u64, quoteMinOut: u64, minTargetOut: u64, first: Hop, second: Hop):
    Result<DynamicBuyRoute, BuyError>
  {
    match DynamicInstruction(programId, config, Accounts(d, payer, feeRecipient, second.output),
                             UserAta(d, payer, first.output), routeAmountIn, quoteMinOut, minTargetOut,
                             second.output.mint, first.leg, second.leg)
    case Failure(e) => Failure(RouteFailed(e))
    case Success(instruction) => Success(DynamicBuyRoute(instruction, first.output, second.output))
  }

  function Accounts(d: Derivation, payer: Pubkey, feeRecipient: Pubkey, output: Token): RouteAccounts {
    RouteAccounts(payer, UserAta(d, feeRecipient, WSOL), UserAta(d, payer, WSOL), UserAta(d, payer, output),
                  TOKEN_PROGRAM, WSOL_MINT)
  }

  /** The two tokens of a pool, as its snapshot names them. */
  function PairOf(pool: Market): Option<(Token, Token)> {
    match pool
    case LaunchLabInner(p) => Some((Token(p.baseMint, p.baseProgram), Token(p.quoteMint, p.quoteProgram)))
    case CpmmOuter(p) => Some((Token(p.baseMint, p.baseProgram), Token(p.quoteMint, p.quoteProgram)))
    case PumpSwapOuter(p) => Some((Token(p.baseMint, p.baseProgram), Token(p.quoteMint, p.quoteProgram)))
    case RaydiumAmmV4(p) => Some((Token(p.coinMint, p.tokenProgram), Token(p.pcMint, p.tokenProgram)))
    case RaydiumClmm(p) => Some((Token(p.mint0, p.program0), Token(p.mint1, p.program1)))
    case Whirlpool(p) => Some((Token(p.mintA, p.programA), Token(p.mintB, p.programB)))
    case MeteoraDlmm(p) => Some((Token(p.mintX, p.programX), Token(p.mintY, p.programY)))
    case MeteoraDammV2(p) => Some((Token(p.mintA, p.programA), Token(p.mintB, p.programB)))
    case OtherMarket => None
  }

  /** The pool trades the one token for the other. */
  predicate Trades(pool: Market, input: Token, output: Token) {
    && PairOf(pool).Some?
    && (PairOf(pool).value == (input, output) || PairOf(pool).value == (output, input))
  }

  /** A first hop trades classic WSOL for the token it reports. */
  lemma FirstHopTrades(d: Derivation, user: Pubkey, pool: Market, amountIn: u64, minOut: u64)
    requires WsolToQuoteLeg(d, user, pool, amountIn, minOut).Success?
    ensures Trades(pool, Token(WSOL_MINT, TOKEN_PROGRAM), WsolToQuoteLeg(d, user, pool, amountIn, minOut).value.output)
  {
  }

  /** A second hop trades the quote token for the one it reports. Only a CPMM pool of one mint under two
      programs reports its input instead. */
  lemma SecondHopTrades(d: Derivation, user: Pubkey, pool: Market, quote: Token, minOut: u64)
    requires QuoteToTargetLeg(d, user, pool, quote, minOut).Success?
    ensures var output := QuoteToTargetLeg(d, user, pool, quote, minOut).value.output;
            || Trades(pool, quote, output)
            || (pool.CpmmOuter? && pool.cpmm.baseMint == pool.cpmm.quoteMint && output == quote)
  {
  }

  /** The venue can build the leg out of WSOL. */
  ghost predicate BuildsFromWsol(d: Derivation, user: Pubkey, pool: Market, amountIn: u64, minOut: u64) {
    match pool
    case CpmmOuter(p) => Owned(p.baseMint, p.baseProgram) && Owned(p.quoteMint, p.quoteProgram)
    case PumpSwapOuter(p) => PumpSwapBuyLeg(d, user, p, amountIn, minOut).Success?
    case RaydiumAmmV4(p) => AmmV4SwapLeg(d, user, p, amountIn, minOut, WSOL_MINT).Success?
    case RaydiumClmm(p) => ClmmSwapLeg(d, user, p, amountIn, minOut, WSOL_MINT).Success?
    case Whirlpool(p) => WhirlpoolSwapLeg(d, user, p, amountIn, minOut, WSOL_MINT).Success?
    case MeteoraDlmm(p) => DlmmSwapLeg(d, user, p, amountIn, minOut, WSOL_MINT).Success?
    case MeteoraDammV2(p) => p.swapMode == 0 && DammSwapLeg(d, user, p, amountIn, minOut, WSOL_MINT).Success?
    case _ => false
  }

  /** The pool has classic WSOL to pay with and, but on CPMM and PumpSwap, another mint. */
  predicate TakesWsol(pool: Market) {
    && PairOf(pool).Some?
    && var (a, b) := PairOf(pool).value;
       && (a == Token(WSOL_MINT, TOKEN_PROGRAM) || b == Token(WSOL_MINT, TOKEN_PROGRAM))
       && (a.mint == b.mint ==> pool.CpmmOuter? || pool.PumpSwapOuter?)
  }

  lemma FirstHopOnPumpSwapBuilds(d: Derivation, user: Pubkey, p: PumpSwapKeys, amountIn: u64, minOut: u64)
    ensures WsolToQuoteLeg(d, user, PumpSwapOuter(p), amountIn, minOut).Success?
            <==> BuildsFromWsol(d, user, PumpSwapOuter(p), amountIn, minOut) && TakesWsol(PumpSwapOuter(p))
  {
    PumpSwapBuildsExactly(d, user, p, amountIn, minOut);
  }

  /** A first hop is built exactly on a venue that builds out of WSOL, over a pool that takes it. */
  lemma FirstHopBuildsExactly(d: Derivation, user: Pubkey, pool: Market, amountIn: u64, minOut: u64)
    ensures WsolToQuoteLeg(d, user, pool, amountIn, minOut).Success?
            <==> BuildsFromWsol(d, user, pool, amountIn, minOut) && TakesWsol(pool)
  {
    match pool
    case PumpSwapOuter(p) => FirstHopOnPumpSwapBuilds(d, user, p, amountIn, minOut);
    case _ =>
  }

  /** PumpSwap and CPMM take either side, where a CPMM pool of one mint takes its base side only, and
      LaunchLab takes the quote side. */
  predicate TakesQuote(pool: Market, quote: Token) {
    && PairOf(pool).Some?
    && var (a, b) := PairOf(pool).value;
       || (pool.PumpSwapOuter? && (quote == a || quote == b))
       || (pool.LaunchLabInner? && quote == b)
       || (pool.CpmmOuter? && (quote == a || (quote == b && a.mint != b.mint)))
  }

  lemma SecondHopOnPumpSwapBuilds(d: Derivation, user: Pubkey, p: PumpSwapKeys, quote: Token, minOut: u64)
    ensures QuoteToTargetLeg(d, user, PumpSwapOuter(p), quote, minOut).Success?
            <==> TakesQuote(PumpSwapOuter(p), quote) && PumpSwapBuyLeg(d, user, p, 1, minOut).Success?
  {
    PumpSwapBuildsExactly(d, user, p, 1, minOut);
  }

  /** A second hop is built exactly on three venues, out of the sides they take, over owned mints. */
  lemma SecondHopBuildsExactly(d: Derivation, user: Pubkey, pool: Market, quote: Token, minOut: u64)
    ensures QuoteToTargetLeg(d, user, pool, quote, minOut).Success?
            <==> && TakesQuote(pool, quote)
                 && if pool.PumpSwapOuter? then PumpSwapBuyLeg(d, user, pool.pumpSwap, 1, minOut).Success?
                    else
                      var (a, b) := PairOf(pool).value;
                      Owned(a.mint, a.program) && Owned(b.mint, b.program)
  {
    match pool
    case PumpSwapOuter(p) => SecondHopOnPumpSwapBuilds(d, user, p, quote, minOut);
    case _ =>
  }

  // ----- the composition -----

  lemma FirstHopOnTicksSpends(d: Derivation, user: Pubkey, pool: Market, amountIn: u64, minOut: u64)
    requires pool.RaydiumClmm? || pool.Whirlpool?
    requires WsolToQuoteLeg(d, user, pool, amountIn, minOut).Success?
    ensures var hop := WsolToQuoteLeg(d, user, pool, amountIn, minOut).value;
            SpendsExactly(hop.leg, user, UserAta(d, user, WSOL), UserAta(d, user, hop.output), amountIn, minOut)
  {
    match pool
    case RaydiumClmm(p) => ClmmSpends(d, user, p, amountIn, minOut, WSOL_MINT);
    case Whirlpool(p) => WhirlpoolSpends(d, user, p, amountIn, minOut, WSOL_MINT);
  }

  lemma FirstHopOnMeteoraSpends(d: Derivation, user: Pubkey, pool: Market, amountIn: u64, minOut: u64)
    requires pool.MeteoraDlmm? || pool.MeteoraDammV2?
    requires WsolToQuoteLeg(d, user, pool, amountIn, minOut).Success?
    ensures var hop := WsolToQuoteLeg(d, user, pool, amountIn, minOut).value;
            SpendsExactly(hop.leg, user, UserAta(d, user, WSOL), UserAta(d, user, hop.output), amountIn, minOut)
  {
    match pool
    case MeteoraDlmm(p) => DlmmSpends(d, user, p, amountIn, minOut, WSOL_MINT);
    case MeteoraDammV2(p) => DammSpends(d, user, p, amountIn, minOut, WSOL_MINT);
  }

  lemma FirstHopOnPumpSwapSpends(d: Derivation, user: Pubkey, p: PumpSwapKeys, amountIn: u64, minOut: u64)
    requires WsolToQuoteLeg(d, user, PumpSwapOuter(p), amountIn, minOut).Success?
    ensures var hop := WsolToQuoteLeg(d, user, PumpSwapOuter(p), amountIn, minOut).value;
            SpendsExactly(hop.leg, user, UserAta(d, user, WSOL), UserAta(d, user, hop.output), amountIn, minOut)
  {
    if Token(p.quoteMint, p.quoteProgram) == WSOL {
      PumpSwapBuySpends(d, user, p, amountIn, minOut);
    } else {
      PumpSwapSellSpends(d, user, p, amountIn, minOut);
    }
  }

  lemma CpmmHopSpends(d: Derivation, user: Pubkey, p: CpmmKeys, input: Token, output: Token, amountIn: u64, minOut: u64)
    requires CpmmHop(d, user, p, input, output, amountIn, minOut).Success?
    ensures var hop := CpmmHop(d, user, p, input, output, amountIn, minOut).value;
            && hop.output == output
            && SpendsExactly(hop.leg, user, UserAta(d, user, input), UserAta(d, user, output), amountIn, minOut)
  {
    CpmmSpends(user, p, amountIn, minOut, input.mint, output.mint, UserAta(d, user, input), UserAta(d, user, output));
  }

  lemma FirstHopOnRaydiumSpends(d: Derivation, user: Pubkey, pool: Market, amountIn: u64, minOut: u64)
    requires pool.CpmmOuter? || pool.RaydiumAmmV4?
    requires WsolToQuoteLeg(d, user, pool, amountIn, minOut).Success?
    ensures var hop := WsolToQuoteLeg(d, user, pool, amountIn, minOut).value;
            SpendsExactly(hop.leg, user, UserAta(d, user, WSOL), UserAta(d, user, hop.output), amountIn, minOut)
  {
    match pool
    case CpmmOuter(p) => CpmmHopSpends(d, user, p, WSOL, CpmmOther(p, WSOL_MINT).value, amountIn, minOut);
    case RaydiumAmmV4(p) => AmmV4Spends(d, user, p, amountIn, minOut, WSOL_MINT);
  }

  /** A first hop, on any of the seven venues, spends the given amount of WSOL into the account of the
      token it reports. */
  lemma FirstHopSpends(d: Derivation, user: Pubkey, pool: Market, amountIn: u64, minOut: u64)
    requires WsolToQuoteLeg(d, user, pool, amountIn, minOut).Success?
    ensures var hop := WsolToQuoteLeg(d, user, pool, amountIn, minOut).value;
            SpendsExactly(hop.leg, user, UserAta(d, user, WSOL), UserAta(d, user, hop.output), amountIn, minOut)
  {
    match pool
    case RaydiumClmm(_) => FirstHopOnTicksSpends(d, user, pool, amountIn, minOut);
    case Whirlpool(_) => FirstHopOnTicksSpends(d, user, pool, amountIn, minOut);
    case MeteoraDlmm(_) => FirstHopOnMeteoraSpends(d, user, pool, amountIn, minOut);
    case MeteoraDammV2(_) => FirstHopOnMeteoraSpends(d, user, pool, amountIn, minOut);
    case CpmmOuter(_) => FirstHopOnRaydiumSpends(d, user, pool, amountIn, minOut);
    case RaydiumAmmV4(_) => FirstHopOnRaydiumSpends(d, user, pool, amountIn, minOut);
    case PumpSwapOuter(p) => FirstHopOnPumpSwapSpends(d, user, p, amountIn, minOut);
  }

  lemma SecondHopOnPumpSwapSpends(d: Derivation, user: Pubkey, p: PumpSwapKeys, quote: Token, minOut: u64)
    requires QuoteToTargetLeg(d, user, PumpSwapOuter(p), quote, minOut).Success?
    ensures var hop := QuoteToTargetLeg(d, user, PumpSwapOuter(p), quote, minOut).value;
            SpendsExactly(hop.leg, user, UserAta(d, user, quote), UserAta(d, user, hop.output), 1, minOut)
  {
    if Token(p.quoteMint, p.quoteProgram) == quote {
      PumpSwapBuySpends(d, user, p, 1, minOut);
    } else {
      PumpSwapSellSpends(d, user, p, 1, minOut);
    }
  }

  /** A second hop spends the quote token, under the first hop's program, into its target. */
  lemma SecondHopSpends(d: Derivation, user: Pubkey, pool: Market, quote: Token, minOut: u64)
    requires QuoteToTargetLeg(d, user, pool, quote, minOut).Success?
    ensures var hop := QuoteToTargetLeg(d, user, pool, quote, minOut).value;
            SpendsExactly(hop.leg, user, UserAta(d, user, quote), UserAta(d, user, hop.output), 1, minOut)
  {
    var hop := QuoteToTargetLeg(d, user, pool, quote, minOut).value;
    match pool
    case PumpSwapOuter(p) => SecondHopOnPumpSwapSpends(d, user, p, quote, minOut);
    case LaunchLabInner(p) =>
      LaunchLabSpends(user, p, 1, minOut, UserAta(d, user, hop.output), UserAta(d, user, quote));
    case CpmmOuter(p) => CpmmHopSpends(d, user, p, quote, CpmmOther(p, quote.mint).value, 1, minOut);
  }

  /** These two tokens of the user do not collide on one derived account. */
  predicate Separates(d: Derivation, user: Pubkey, a: Token, b: Token) {
    UserAta(d, user, a) == UserAta(d, user, b) ==> a == b
  }

  lemma SpendingWrites(leg: Leg, user: Pubkey, input: Pubkey, output: Pubkey, amount: u64, floor: u64)
    requires SpendsExactly(leg, user, input, output, amount, floor)
    ensures WritesTo(leg, output)
  {
    var l := DynamicLegLayout(leg).value;
    assert leg.accounts[l.outputAccount].pubkey == output;
  }

  /** Two hops of the payer: WSOL into the first one's token, and that into the second one's. */
  ghost predicate HopsChain(d: Derivation, payer: Pubkey, first: Hop, second: Hop, firstAmount: u64, quoteMinOut: u64,
                            minTargetOut: u64) {
    && SpendsExactly(first.leg, payer, UserAta(d, payer, WSOL), UserAta(d, payer, first.output), firstAmount,
                     quoteMinOut)
    && SpendsExactly(second.leg, payer, UserAta(d, payer, first.output), UserAta(d, payer, second.output), 1,
                     minTargetOut)
  }

  /** The route builder accepts two chained hops exactly when amounts are positive, the target is not
      native SOL and the quote token is neither WSOL nor the target. */
  lemma ChainedHopsJoin(d: Derivation, programId: Pubkey, config: Pubkey, payer: Pubkey, feeRecipient: Pubkey,
                        routeAmountIn: u64, firstAmount: u64, quoteMinOut: u64, minTargetOut: u64, first: Hop,
                        second: Hop)
    requires HopsChain(d, payer, first, second, firstAmount, quoteMinOut, minTargetOut)
    requires Separates(d, payer, first.output, WSOL) && Separates(d, payer, first.output, second.output)
    ensures JoinHops(d, programId, config, payer, feeRecipient, routeAmountIn, quoteMinOut, minTargetOut, first,
                     second).Success?
            <==> && 0 < routeAmountIn && 0 < quoteMinOut && 0 < minTargetOut && second.output.mint != SYSTEM_PROGRAM
                 && first.output != WSOL && first.output != second.output
  {
    SpendingWrites(first.leg, payer, UserAta(d, payer, WSOL), UserAta(d, payer, first.output), firstAmount,
                   quoteMinOut);
  }

  /** Within the budget, building is joining the two hops. */
  lemma BuildJoinsHops(d: Derivation, programId: Pubkey, config: Pubkey, payer: Pubkey, feeRecipient: Pubkey,
                       routeAmountIn: u64, firstLegAmountIn: u64, quoteMinOut: u64, minTargetOut: u64,
                       quotePool: Market, targetPool: Market, first: Hop, second: Hop)
    requires 0 < firstLegAmountIn <= routeAmountIn
    requires WsolToQuoteLeg(d, payer, quotePool, firstLegAmountIn, quoteMinOut) == Success(first)
    requires QuoteToTargetLeg(d, payer, targetPool, first.output, minTargetOut) == Success(second)
    ensures BuildDynamicQuoteBuy(d, programId, config, payer, feeRecipient, routeAmountIn, firstLegAmountIn,
                                 quoteMinOut, minTargetOut, quotePool, targetPool)
            == JoinHops(d, programId, config, payer, feeRecipient, routeAmountIn, quoteMinOut, minTargetOut, first,
                        second)
  {
  }

  lemma BuiltHopsChain(d: Derivation, payer: Pubkey, firstLegAmountIn: u64, quoteMinOut: u64, minTargetOut: u64,
                       quotePool: Market, targetPool: Market, first: Hop, second: Hop)
    requires WsolToQuoteLeg(d, payer, quotePool, firstLegAmountIn, quoteMinOut) == Success(first)
    requires QuoteToTargetLeg(d, payer, targetPool, first.output, minTargetOut) == Success(second)
    ensures HopsChain(d, payer, first, second, firstLegAmountIn, quoteMinOut, minTargetOut)
  {
    FirstHopSpends(d, payer, quotePool, firstLegAmountIn, quoteMinOut);
    SecondHopSpends(d, payer, targetPool, first.output, minTargetOut);
  }

  /** Once both hops build within the budget, the route is built exactly when the floors are positive,
      the target is not native SOL, and the quote token is neither WSOL nor the target itself: no
      other check of the route builder can fail. */
  lemma TwoHopBuildsExactly(d: Derivation, programId: Pubkey, config: Pubkey, payer: Pubkey, feeRecipient: Pubkey,
                            routeAmountIn: u64, firstLegAmountIn: u64, quoteMinOut: u64, minTargetOut: u64,
                            quotePool: Market, targetPool: Market, first: Hop, second: Hop)
    requires 0 < firstLegAmountIn <= routeAmountIn
    requires Separates(d, payer, first.output, WSOL) && Separates(d, payer, first.output, second.output)
    requires WsolToQuoteLeg(d, payer, quotePool, firstLegAmountIn, quoteMinOut) == Success(first)
    requires QuoteToTargetLeg(d, payer, targetPool, first.output, minTargetOut) == Success(second)
    ensures BuildDynamicQuoteBuy(d, programId, config, payer, feeRecipient, routeAmountIn, firstLegAmountIn,
                                 quoteMinOut, minTargetOut, quotePool, targetPool).Success?
            <==> && 0 < quoteMinOut && 0 < minTargetOut && second.output.mint != SYSTEM_PROGRAM
                 && first.output != WSOL && first.output != second.output
  {
    BuildJoinsHops(d, programId, config, payer, feeRecipient, routeAmountIn, firstLegAmountIn, quoteMinOut,
                   minTargetOut, quotePool, targetPool, first, second);
    BuiltHopsChain(d, payer, firstLegAmountIn, quoteMinOut, minTargetOut, quotePool, targetPool, first, second);
    ChainedHopsJoin(d, programId, config, payer, feeRecipient, routeAmountIn, firstLegAmountIn, quoteMinOut,
                    minTargetOut, first, second);
  }

  /** The instruction is the program's, with the payer's and the fee recipient's accounts; it reads back as
      a tag-5 route of the requested amounts over two chained hops, and the second hop spends exactly
      `received` once the router has written that amount into it. */
  ghost predicate DecodesToChain(d: Derivation, programId: Pubkey, config: Pubkey, payer: Pubkey,
                                 feeRecipient: Pubkey, built: DynamicBuyRoute, routeAmountIn: u64,
                                 firstLegAmountIn: u64, quoteMinOut: u64, minTargetOut: u64, received: u64) {
    var decoded := Decode(built.instruction.data, built.instruction.accounts);
    var quote, output := built.quote, built.output;
    && built.instruction.programId == programId
    && StartsWithFixed(built.instruction.accounts,
                       RouteAccounts(payer, d.ata(feeRecipient, WSOL_MINT, TOKEN_PROGRAM),
                                     d.ata(payer, WSOL_MINT, TOKEN_PROGRAM), d.ata(payer, output.mint, output.program),
                                     TOKEN_PROGRAM, WSOL_MINT),
                       config, [d.ata(payer, quote.mint, quote.program)])
    && decoded.Some? && |decoded.value.legs| == 2
    && var legs := decoded.value.legs;
       && Says(decoded, 5, routeAmountIn, minTargetOut, 1, output.mint, [quoteMinOut], legs)
       && HopsChain(d, payer, Hop(legs[0], quote), Hop(legs[1], output), firstLegAmountIn, quoteMinOut, minTargetOut)
       && var offset := DynamicLegLayout(legs[1]).value.amountOffset;
          && offset + 8 <= |legs[1].data|
          && SpendsExactly(legs[1].(data := Overwrite(legs[1].data, offset, Le64(received))), payer,
                           UserAta(d, payer, quote), UserAta(d, payer, output), received, minTargetOut)
  }

  lemma JoinedHopsChain(d: Derivation, programId: Pubkey, config: Pubkey, payer: Pubkey, feeRecipient: Pubkey,
                        routeAmountIn: u64, firstAmount: u64, quoteMinOut: u64, minTargetOut: u64, first: Hop,
                        second: Hop, received: u64)
    requires HopsChain(d, payer, first, second, firstAmount, quoteMinOut, minTargetOut)
    requires JoinHops(d, programId, config, payer, feeRecipient, routeAmountIn, quoteMinOut, minTargetOut, first,
                      second).Success?
    ensures DecodesToChain(d, programId, config, payer, feeRecipient,
                           JoinHops(d, programId, config, payer, feeRecipient, routeAmountIn, quoteMinOut,
                                    minTargetOut, first, second).value,
                           routeAmountIn, firstAmount, quoteMinOut, minTargetOut, received)
  {
    DynamicInstructionDecodes(programId, config, Accounts(d, payer, feeRecipient, second.output),
                              UserAta(d, payer, first.output), routeAmountIn, quoteMinOut, minTargetOut,
                              second.output.mint, first.leg, second.leg);
    OverwrittenSpends(second.leg, payer, UserAta(d, payer, first.output), UserAta(d, payer, second.output), 1,
                      received, minTargetOut);
  }

  /** The built instruction decodes to the two hops, chained: the first spends WSOL into the quote
      account, the second spends that account into the target, and still does so for whatever
      amount the router writes into it. */
  lemma TwoHopChains(d: Derivation, programId: Pubkey, config: Pubkey, payer: Pubkey, feeRecipient: Pubkey,
                     routeAmountIn: u64, firstLegAmountIn: u64, quoteMinOut: u64, minTargetOut: u64,
                     quotePool: Market, targetPool: Market, received: u64)
    requires BuildDynamicQuoteBuy(d, programId, config, payer, feeRecipient, routeAmountIn, firstLegAmountIn,
                                  quoteMinOut, minTargetOut, quotePool, targetPool).Success?
    ensures DecodesToChain(d, programId, config, payer, feeRecipient,
                           BuildDynamicQuoteBuy(d, programId, config, payer, feeRecipient, routeAmountIn,
                                                firstLegAmountIn, quoteMinOut, minTargetOut, quotePool,
                                                targetPool).value,
                           routeAmountIn, firstLegAmountIn, quoteMinOut, minTargetOut, received)
  {
    var first := WsolToQuoteLeg(d, payer, quotePool, firstLegAmountIn, quoteMinOut).value;
    var second := QuoteToTargetLeg(d, payer, targetPool, first.output, minTargetOut).value;
    BuildJoinsHops(d, programId, config, payer, feeRecipient, routeAmountIn, firstLegAmountIn, quoteMinOut,
                   minTargetOut, quotePool, targetPool, first, second);
    BuiltHopsChain(d, payer, firstLegAmountIn, quoteMinOut, minTargetOut, quotePool, targetPool, first, second);
    JoinedHopsChain(d, programId, config, payer, feeRecipient, routeAmountIn, firstLegAmountIn, quoteMinOut,
                    minTargetOut, first, second, received);
  }
}
