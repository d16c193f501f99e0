/** What each venue finds at the indices of a built leg: its tag, its pool's accounts, the user's, and
    who signs and is written (crates/sdk/src/legs.rs). */
module LegAccounts {
  import opened Wrappers
  import opened Arith
  import opened Bytes
  import opened Keys
  import opened DynamicLeg
  import opened Legs
  import opened LegSlots

  /** The metas start with these keys, the signer and the writable ones marked. */
  ghost predicate Names(metas: seq<AccountMeta>, keys: seq<Pubkey>, signer: nat, writable: set<nat>) {
    && |keys| <= |metas|
    && forall i :: 0 <= i < |keys| ==> metas[i] == AccountMeta(keys[i], i == signer, i in writable)
  }

  lemma NamesPrefix(fixed: seq<AccountMeta>, metas: seq<AccountMeta>, keys: seq<Pubkey>, signer: nat,
                    writable: set<nat>)
    requires fixed <= metas && Names(fixed, keys, signer, writable)
    ensures Names(metas, keys, signer, writable)
  {
    assert forall i :: 0 <= i < |fixed| ==> metas[i] == fixed[i];
  }

  /** The leg is the program's and carries the tag. */
  ghost predicate Tagged(leg: Leg, program: Pubkey, tag: seq<int>) {
    leg.programId == program && |tag| <= |leg.data| && forall i :: 0 <= i < |tag| ==> leg.data[i] == tag[i]
  }

  // ----- LaunchLab, CPMM, AMM V4, PumpSwap -----

  lemma LaunchLabTagged(user: Pubkey, p: LaunchLabKeys, amountIn: u64, minOut: u64, base: Pubkey, quote: Pubkey)
    ensures Tagged(LaunchLabBuyLeg(user, p, amountIn, minOut, base, quote), LAUNCHLAB_PROGRAM,
                   [250, 234, 13, 123, 213, 156, 19, 236])
  {
    assert LaunchLabBuyLeg(user, p, amountIn, minOut, base, quote).data[..8] == BUY_EXACT_IN_LAUNCHLAB;
  }

  lemma LaunchLabHolds(user: Pubkey, p: LaunchLabKeys, amountIn: u64, minOut: u64, base: Pubkey, quote: Pubkey)
    ensures var accounts := LaunchLabBuyLeg(user, p, amountIn, minOut, base, quote).accounts;
            Names(accounts,
                  [user, LAUNCHLAB_AUTHORITY, p.globalConfig, p.platformConfig, p.poolState, base, quote, p.baseVault,
                   p.quoteVault],
                  0, {0, 4, 5, 6, 7, 8})
  {
  }

  /** The rest, none of which signs. */
  lemma LaunchLabRest(user: Pubkey, p: LaunchLabKeys, amountIn: u64, minOut: u64, base: Pubkey, quote: Pubkey)
    ensures var accounts := LaunchLabBuyLeg(user, p, amountIn, minOut, base, quote).accounts;
            && |accounts| == 18
            && Names(accounts[9..],
                     [p.baseMint, p.quoteMint, p.baseProgram, p.quoteProgram, LAUNCHLAB_EVENT_AUTHORITY,
                      LAUNCHLAB_PROGRAM, SYSTEM_PROGRAM, p.platformAccount, p.creatorAccount],
                     9, {7, 8})
  {
  }

  /** Base in, quote out. The other direction is `CpmmReversal`'s. */
  lemma CpmmHolds(user: Pubkey, p: CpmmKeys, amountIn: u64, minOut: u64, userInput: Pubkey, userOutput: Pubkey)
    requires CpmmSwapLeg(user, p, amountIn, minOut, p.baseMint, p.quoteMint, userInput, userOutput).Success?
    ensures var leg := CpmmSwapLeg(user, p, amountIn, minOut, p.baseMint, p.quoteMint, userInput, userOutput).value;
            && |leg.accounts| == 13 && Tagged(leg, RAYDIUM_CPMM_PROGRAM, [143, 190, 90, 218, 196, 30, 51, 222])
            && Names(leg.accounts,
                     [user, RAYDIUM_CPMM_AUTHORITY, p.ammConfig, p.poolState, userInput, userOutput, p.baseVault,
                      p.quoteVault, p.baseProgram, p.quoteProgram, p.baseMint, p.quoteMint, p.observationState],
                     0, {3, 4, 5, 6, 7, 12})
  {
    var leg := CpmmSwapLeg(user, p, amountIn, minOut, p.baseMint, p.quoteMint, userInput, userOutput).value;
    assert leg.data[..8] == CPMM_SWAP_BASE_IN;
  }

  lemma AmmV4Holds(d: Derivation, user: Pubkey, p: AmmV4Keys, amountIn: u64, minOut: u64, inputMint: Pubkey)
    requires AmmV4SwapLeg(d, user, p, amountIn, minOut, inputMint).Success?
    ensures var leg := AmmV4SwapLeg(d, user, p, amountIn, minOut, inputMint).value;
            var outputMint := if inputMint == p.coinMint then p.pcMint else p.coinMint;
            && |leg.accounts| == 8 && Tagged(leg, RAYDIUM_AMM_V4_PROGRAM, [16])
            && Names(leg.accounts,
                     [TOKEN_PROGRAM, p.amm, RAYDIUM_AMM_V4_AUTHORITY, p.tokenCoin, p.tokenPc,
                      d.ata(user, inputMint, TOKEN_PROGRAM), d.ata(user, outputMint, TOKEN_PROGRAM), user],
                     7, {1, 3, 4, 5, 6})
  {
  }

  lemma PumpSwapFixedNames(d: Derivation, user: Pubkey, p: PumpSwapKeys)
    ensures Names(PumpSwapFixed(d, user, p),
                  [p.pool, user, PUMPSWAP_GLOBAL, p.baseMint, p.quoteMint, d.ata(user, p.baseMint, p.baseProgram),
                   d.ata(user, p.quoteMint, p.quoteProgram), p.poolBaseAccount, p.poolQuoteAccount,
                   p.protocolFeeRecipient, d.ata(p.protocolFeeRecipient, p.quoteMint, p.quoteProgram), p.baseProgram,
                   p.quoteProgram, SYSTEM_PROGRAM, ASSOCIATED_TOKEN_PROGRAM, PUMPSWAP_EVENT_AUTHORITY,
                   PUMPSWAP_PROGRAM, p.creatorVaultAta, p.creatorVaultAuthority],
                  1, {0, 1, 5, 6, 7, 8, 10, 17})
  {
  }

  /** PumpSwap buys and sells share their first nineteen accounts, and differ in their tags. */
  lemma PumpSwapHolds(d: Derivation, user: Pubkey, p: PumpSwapKeys, amountIn: u64, minOut: u64)
    ensures var buy := PumpSwapBuyLeg(d, user, p, amountIn, minOut);
            buy.Success? ==> && PumpSwapFixed(d, user, p) <= buy.value.accounts
                             && Tagged(buy.value, PUMPSWAP_PROGRAM, [198, 46, 21, 82, 180, 217, 232, 112])
    ensures var sell := PumpSwapSellLeg(d, user, p, amountIn, minOut);
            sell.Success? ==> && PumpSwapFixed(d, user, p) <= sell.value.accounts
                              && Tagged(sell.value, PUMPSWAP_PROGRAM, [51, 230, 133, 164, 1, 127, 131, 173])
  {
    var buy, sell := PumpSwapBuyLeg(d, user, p, amountIn, minOut), PumpSwapSellLeg(d, user, p, amountIn, minOut);
    assert buy.Success? ==> buy.value.data[..8] == PUMPSWAP_BUY_EXACT_QUOTE_IN;
    assert sell.Success? ==> sell.value.data[..8] == PUMPSWAP_SELL;
  }

  lemma TailParts(metas: seq<AccountMeta>, fixed: seq<AccountMeta>, volume: seq<AccountMeta>, fees: seq<AccountMeta>,
                  cashback: seq<AccountMeta>, creator: seq<AccountMeta>, buyback: seq<AccountMeta>)
    requires metas == fixed + volume + fees + cashback + creator + buyback && |fees| == |buyback| == 2
    ensures var i, j, n := |fixed|, |fixed| + |volume|, |metas|;
            && metas[i..j] == volume && metas[j..j + 2] == fees && metas[j + 2..j + 2 + |cashback|] == cashback
            && metas[n - 2 - |creator|..n - 2] == creator && metas[n - 2..] == buyback
  {
  }

  /** After those come the volume accounts of a buy, the fee program's, the cashback and creator accounts if
      any, and always the buyback recipient's two. */
  lemma PumpSwapTail(d: Derivation, user: Pubkey, p: PumpSwapKeys, isBuy: bool)
    requires PumpSwapMetas(d, user, p, isBuy).Success?
    ensures d.pumpSwapAccumulator(user).Some? && (p.coinCreator != DEFAULT_KEY ==> d.pumpSwapPoolV2(p.baseMint).Some?)
    ensures var metas, accumulator := PumpSwapMetas(d, user, p, isBuy).value, d.pumpSwapAccumulator(user).value;
            var fees, n := if isBuy then 21 else 19, |metas|;
            && fees + 4 <= n
            && (isBuy ==> metas[19..21] == [Readonly(PUMPSWAP_GLOBAL_VOLUME_ACCUMULATOR), Writable(accumulator)])
            && metas[fees..fees + 2] == [Readonly(PUMPSWAP_FEE_CONFIG), Readonly(PUMPSWAP_FEE_PROGRAM)]
            && metas[fees + 2..n - 2]
               == (if !p.isCashbackCoin then []
                   else if isBuy then [Writable(d.ata(accumulator, p.quoteMint, p.quoteProgram))]
                   else [Writable(d.ata(accumulator, p.quoteMint, p.quoteProgram)), Writable(accumulator)])
                  + (if p.coinCreator == DEFAULT_KEY then [] else [Readonly(d.pumpSwapPoolV2(p.baseMint).value)])
            && metas[n - 2..] == [Readonly(p.buybackFeeRecipient),
                                  Writable(d.ata(p.buybackFeeRecipient, p.quoteMint, p.quoteProgram))]
  {
    var metas, accumulator := PumpSwapMetas(d, user, p, isBuy).value, d.pumpSwapAccumulator(user).value;
    var volume := if isBuy then [Readonly(PUMPSWAP_GLOBAL_VOLUME_ACCUMULATOR), Writable(accumulator)] else [];
    var ata := [Writable(d.ata(accumulator, p.quoteMint, p.quoteProgram))];
    var cashback := if p.isCashbackCoin then ata + (if isBuy then [] else [Writable(accumulator)]) else [];
    var creator := if p.coinCreator != DEFAULT_KEY then [Readonly(d.pumpSwapPoolV2(p.baseMint).value)] else [];
    TailParts(metas, PumpSwapFixed(d, user, p), volume, [Readonly(PUMPSWAP_FEE_CONFIG), Readonly(PUMPSWAP_FEE_PROGRAM)],
              cashback, creator,
              [Readonly(p.buybackFeeRecipient), Writable(d.ata(p.buybackFeeRecipient, p.quoteMint, p.quoteProgram))]);
    var fees, n := if isBuy then 21 else 19, |metas|;
    assert metas[fees + 2..n - 2] == cashback + creator;
  }

  // ----- Meteora -----

  lemma DammHolds(d: Derivation, user: Pubkey, p: DammKeys, amountIn: u64, minOut: u64, inputMint: Pubkey)
    requires DammSwapLeg(d, user, p, amountIn, minOut, inputMint).Success?
    ensures var leg := DammSwapLeg(d, user, p, amountIn, minOut, inputMint).value;
            && 14 <= |leg.accounts| && Tagged(leg, METEORA_DAMM_V2_PROGRAM, [65, 75, 63, 76, 235, 91, 91, 136])
            && Names(leg.accounts,
                     [METEORA_DAMM_V2_AUTHORITY, p.pool, leg.accounts[2].pubkey, leg.accounts[3].pubkey, p.vaultA,
                      p.vaultB, p.mintA, p.mintB, user, p.programA, p.programB],
                     8, {1, 2, 3, 4, 5})
  {
    assert DammSwapLeg(d, user, p, amountIn, minOut, inputMint).value.data[..8] == METEORA_DAMM_V2_SWAP2;
  }

  /** The optional referral and sysvar accounts, with the program standing in for a missing referral. */
  lemma DammTail(d: Derivation, user: Pubkey, p: DammKeys, amountIn: u64, minOut: u64, inputMint: Pubkey)
    requires DammSwapLeg(d, user, p, amountIn, minOut, inputMint).Success?
    ensures var leg := DammSwapLeg(d, user, p, amountIn, minOut, inputMint).value;
            var referred := p.referral.Some? && p.referral.value != DEFAULT_KEY
                            && p.referral.value != METEORA_DAMM_V2_PROGRAM;
            && |leg.accounts| == (if p.includeRateLimiterSysvar then 15 else 14)
            && leg.accounts[11].pubkey == (if referred then p.referral.value else METEORA_DAMM_V2_PROGRAM)
            && (leg.accounts[11].isWritable <==> referred)
            && leg.accounts[12].pubkey == d.dammEventAuthority
            && leg.accounts[13].pubkey == METEORA_DAMM_V2_PROGRAM
            && (p.includeRateLimiterSysvar ==> leg.accounts[14] == Readonly(SYSVAR_INSTRUCTIONS))
            && |leg.data| == 25 && leg.data[24] == p.swapMode
  {
  }

  /** The bitmap extension's own account, or the program in its place. */
  function DlmmBitmapKey(p: DlmmKeys): Pubkey {
    if p.bitmapExtension.Some? then p.bitmapExtension.value else METEORA_DLMM_PROGRAM
  }

  lemma DlmmFixedNames(d: Derivation, user: Pubkey, p: DlmmKeys, input: Token, output: Token)
    ensures Names(DlmmFixed(d, user, p, input, output),
                  [p.lbPair, DlmmBitmapKey(p), p.reserveX, p.reserveY, d.ata(user, input.mint, input.program),
                   d.ata(user, output.mint, output.program), p.mintX, p.mintY, p.oracle, METEORA_DLMM_PROGRAM, user,
                   p.programX, p.programY, MEMO_PROGRAM, METEORA_DLMM_EVENT_AUTHORITY, METEORA_DLMM_PROGRAM],
                  10, {0, 2, 3, 4, 5, 8} + if DlmmBitmapKey(p) == METEORA_DLMM_PROGRAM then {} else {1})
  {
  }

  /** After those come the bin arrays. */
  lemma DlmmHolds(d: Derivation, user: Pubkey, p: DlmmKeys, amountIn: u64, minOut: u64, inputMint: Pubkey)
    requires DlmmSwapLeg(d, user, p, amountIn, minOut, inputMint).Success?
    ensures var leg := DlmmSwapLeg(d, user, p, amountIn, minOut, inputMint).value;
            var x, y := Token(p.mintX, p.programX), Token(p.mintY, p.programY);
            && Tagged(leg, METEORA_DLMM_PROGRAM, [65, 75, 63, 76, 235, 91, 91, 136])
            && leg.accounts == (if inputMint == p.mintX
                                then DlmmFixed(d, user, p, x, if p.mintY == p.mintX then x else y)
                                else DlmmFixed(d, user, p, y, x))
                               + WritableAll(p.binArrays)
  {
    assert DlmmSwapLeg(d, user, p, amountIn, minOut, inputMint).value.data[..8] == METEORA_DLMM_SWAP2;
  }

  // ----- tick arrays -----

  lemma ClmmFixedNames(d: Derivation, user: Pubkey, p: ClmmKeys)
    ensures Names(ClmmFixed(d, user, p, Sides(Token(p.mint0, p.program0), Token(p.mint1, p.program1)), true),
                  [user, p.ammConfig, p.poolState, d.ata(user, p.mint0, p.program0), d.ata(user, p.mint1, p.program1),
                   p.vault0, p.vault1, p.observationState, TOKEN_PROGRAM, TOKEN_2022_PROGRAM, MEMO_PROGRAM, p.mint0,
                   p.mint1],
                  0, {2, 3, 4, 5, 6, 7})
  {
  }

  /** Mint 0 in, mint 1 out, exact in. The other direction is `ClmmReversal`'s, the arrays
      `ClmmBitmapIsNormalised`'s. */
  lemma ClmmHolds(d: Derivation, user: Pubkey, p: ClmmKeys, amountIn: u64, minOut: u64)
    requires ClmmSwapLeg(d, user, p, amountIn, minOut, p.mint0).Success?
    ensures var leg := ClmmSwapLeg(d, user, p, amountIn, minOut, p.mint0).value;
            && |leg.data| == 41 && leg.data[40] == 1
            && Tagged(leg, RAYDIUM_CLMM_PROGRAM, [43, 4, 237, 11, 26, 201, 30, 98])
            && Names(leg.accounts,
                     [user, p.ammConfig, p.poolState, d.ata(user, p.mint0, p.program0),
                      d.ata(user, p.mint1, p.program1), p.vault0, p.vault1, p.observationState, TOKEN_PROGRAM,
                      TOKEN_2022_PROGRAM, MEMO_PROGRAM, p.mint0, p.mint1],
                     0, {2, 3, 4, 5, 6, 7})
  {
    var leg := ClmmSwapLeg(d, user, p, amountIn, minOut, p.mint0).value;
    assert leg.data[..8] == CLMM_SWAP_V2;
    ClmmFixedNames(d, user, p);
    NamesPrefix(ClmmFixed(d, user, p, Sides(Token(p.mint0, p.program0), Token(p.mint1, p.program1)), true),
                leg.accounts,
                [user, p.ammConfig, p.poolState, d.ata(user, p.mint0, p.program0), d.ata(user, p.mint1, p.program1),
                 p.vault0, p.vault1, p.observationState, TOKEN_PROGRAM, TOKEN_2022_PROGRAM, MEMO_PROGRAM, p.mint0,
                 p.mint1],
                0, {2, 3, 4, 5, 6, 7});
  }

  lemma WhirlpoolFixedNames(d: Derivation, user: Pubkey, p: WhirlpoolKeys)
    requires 3 <= |p.tickArrays|
    ensures Names(WhirlpoolFixed(d, user, p),
                  [p.programA, p.programB, MEMO_PROGRAM, user, p.whirlpool, p.mintA, p.mintB,
                   d.ata(user, p.mintA, p.programA), p.vaultA, d.ata(user, p.mintB, p.programB), p.vaultB,
                   p.tickArrays[0], p.tickArrays[1], p.tickArrays[2], d.whirlpoolOracle(p.whirlpool)],
                  3, {4, 7, 8, 9, 10, 11, 12, 13, 14})
  {
  }

  /** After those come the supplemental tick arrays; the data carries the direction. */
  lemma WhirlpoolHolds(d: Derivation, user: Pubkey, p: WhirlpoolKeys, amountIn: u64, minOut: u64, inputMint: Pubkey)
    requires WhirlpoolSwapLeg(d, user, p, amountIn, minOut, inputMint).Success?
    ensures var leg := WhirlpoolSwapLeg(d, user, p, amountIn, minOut, inputMint).value;
            && 3 <= |p.tickArrays| <= 6
            && leg.accounts == WhirlpoolFixed(d, user, p) + WritableAll(p.tickArrays[3..])
            && Tagged(leg, ORCA_WHIRLPOOL_PROGRAM, [43, 4, 237, 11, 26, 201, 30, 98])
            && 43 <= |leg.data| && leg.data[40] == 1 && leg.data[41] == (if inputMint == p.mintA then 1 else 0)
  {
    var leg := WhirlpoolSwapLeg(d, user, p, amountIn, minOut, inputMint).value;
    var head := SwapHead(WHIRLPOOL_SWAP_V2, amountIn, minOut);
    WhirlpoolDataFields(leg.data, head, WhirlpoolLimit(inputMint == p.mintA), WhirlpoolFlags(inputMint == p.mintA),
                        WhirlpoolRemaining(|p.tickArrays| - 3));
    assert leg.data[..8] == WHIRLPOOL_SWAP_V2;
  }

  // ----- what the builders refuse -----

  /** One of the two token programs owns the mint, and the classic one owns WSOL. */
  predicate Owned(mint: Pubkey, program: Pubkey) {
    program in {TOKEN_PROGRAM, TOKEN_2022_PROGRAM} && (mint == WSOL_MINT ==> program == TOKEN_PROGRAM)
  }

  lemma CpmmBuildsExactly(user: Pubkey, p: CpmmKeys, amountIn: u64, minOut: u64, inputMint: Pubkey,
                          outputMint: Pubkey, userInput: Pubkey, userOutput: Pubkey)
    ensures CpmmSwapLeg(user, p, amountIn, minOut, inputMint, outputMint, userInput, userOutput).Success?
            <==> && Owned(p.baseMint, p.baseProgram) && Owned(p.quoteMint, p.quoteProgram)
                 && (inputMint, outputMint) in {(p.baseMint, p.quoteMint), (p.quoteMint, p.baseMint)}
  {
  }

  lemma PumpSwapBuildsExactly(d: Derivation, user: Pubkey, p: PumpSwapKeys, amountIn: u64, minOut: u64)
    ensures var builds := && Owned(p.baseMint, p.baseProgram) && Owned(p.quoteMint, p.quoteProgram)
                          && p.accountsValid && d.pumpSwapAccumulator(user).Some?
                          && (p.coinCreator == 0 || d.pumpSwapPoolV2(p.baseMint).Some?);
            && (PumpSwapBuyLeg(d, user, p, amountIn, minOut).Success? <==> builds)
            && (PumpSwapSellLeg(d, user, p, amountIn, minOut).Success? <==> builds)
  {
  }

  lemma AmmV4BuildsExactly(d: Derivation, user: Pubkey, p: AmmV4Keys, amountIn: u64, minOut: u64, inputMint: Pubkey)
    ensures AmmV4SwapLeg(d, user, p, amountIn, minOut, inputMint).Success?
            <==> p.coinMint != 0 && p.pcMint != 0 && inputMint in {p.coinMint, p.pcMint}
                 && p.tokenProgram in {0, TOKEN_PROGRAM}
  {
  }

  lemma DammBuildsExactly(d: Derivation, user: Pubkey, p: DammKeys, amountIn: u64, minOut: u64, inputMint: Pubkey)
    ensures DammSwapLeg(d, user, p, amountIn, minOut, inputMint).Success?
            <==> && Owned(p.mintA, p.programA) && Owned(p.mintB, p.programB)
                 && p.swapMode in {0, 2} && inputMint in {p.mintA, p.mintB}
  {
  }

  lemma ClmmBuildsExactly(d: Derivation, user: Pubkey, p: ClmmKeys, amountIn: u64, minOut: u64, inputMint: Pubkey)
    ensures var pda := d.clmmBitmap(p.poolState);
            var arrays := Without(p.tickArrays, pda);
            ClmmSwapLeg(d, user, p, amountIn, minOut, inputMint).Success?
            <==> && Owned(p.mint0, p.program0) && Owned(p.mint1, p.program1) && inputMint in {p.mint0, p.mint1}
                 && (p.bitmapExtension.Some? ==> p.bitmapExtension.value == pda)
                 && 0 < |arrays| && 0 !in arrays
                 && 13 + (if p.bitmapExtension.Some? || pda in p.tickArrays then 1 else 0) + |arrays| <= 64
  {
    var arrays := Without(p.tickArrays, d.clmmBitmap(p.poolState));
    assert ArraysValid(arrays) <==> 0 !in arrays;
  }

  lemma WhirlpoolBuildsExactly(d: Derivation, user: Pubkey, p: WhirlpoolKeys, amountIn: u64, minOut: u64,
                               inputMint: Pubkey)
    ensures WhirlpoolSwapLeg(d, user, p, amountIn, minOut, inputMint).Success?
            <==> && Owned(p.mintA, p.programA) && Owned(p.mintB, p.programB) && inputMint in {p.mintA, p.mintB}
                 && 3 <= |p.tickArrays| <= 6 && 0 !in p.tickArrays
  {
    assert ArraysValid(p.tickArrays) <==> 0 !in p.tickArrays;
  }

  lemma DlmmBuildsExactly(d: Derivation, user: Pubkey, p: DlmmKeys, amountIn: u64, minOut: u64, inputMint: Pubkey)
    ensures DlmmSwapLeg(d, user, p, amountIn, minOut, inputMint).Success?
            <==> && Owned(p.mintX, p.programX) && Owned(p.mintY, p.programY) && inputMint in {p.mintX, p.mintY}
                 && 0 < |p.binArrays| <= 48 && 0 !in p.binArrays
                 && (p.bitmapExtension.Some? ==>
                       p.bitmapExtension.value in {d.dlmmBitmap(p.lbPair), METEORA_DLMM_PROGRAM})
  {
    assert ArraysValid(p.binArrays) <==> 0 !in p.binArrays;
  }

  // ----- price limits -----

  lemma LimitsFitTheirField()
    ensures 79_226_673_521_066_979_257_578_248_091 < Pow256(16)
  {
    Widths();
    PowAdds(8, 8);
  }

  /** A CLMM leg's price limit is one step inside the range's end in its direction. */
  lemma ClmmLimitOnWire(zeroForOne: bool)
    ensures LeNat(ClmmLimit(zeroForOne))
            == if zeroForOne then 4_295_048_017 else 79_226_673_521_066_979_257_578_248_090
  {
    var limit := if zeroForOne then MIN_SQRT_PRICE_X64 + 1 else MAX_SQRT_PRICE_X64 - 1;
    LimitsFitTheirField();
    LeRoundTrip(16, limit);
  }

  /** A Whirlpool leg's is the end itself. */
  lemma WhirlpoolLimitOnWire(aToB: bool)
    ensures LeNat(WhirlpoolLimit(aToB))
            == if aToB then 4_295_048_016 else 79_226_673_515_401_279_992_447_579_055
  {
    var limit := if aToB then WHIRLPOOL_MIN_SQRT_PRICE_X64 else WHIRLPOOL_MAX_SQRT_PRICE_X64;
    LimitsFitTheirField();
    LeRoundTrip(16, limit);
  }
}
