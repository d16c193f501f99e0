/** Every exact-input builder produces a leg that the dynamic classifier accepts, with the slots and
    the amount window where the classifier reads them. */
module LegSlots {
  import opened Wrappers
  import opened Arith
  import opened Bytes
  import opened Keys
  import opened DynamicLeg
  import opened Legs

  /** The leg is classified as exact-input, spends `amount` from `input` into at least `floor` of
      `output` for `user`, and fits the router's limits. */
  ghost predicate SpendsExactly(leg: Leg, user: Pubkey, input: Pubkey, output: Pubkey, amount: u64, floor: u64) {
    && LegMatches(leg, user, input, output, false)
    && 0 < |leg.accounts| <= MAX_LEG_ACCOUNTS
    && |leg.data| < 0x1_0000
    && var offset := DynamicLegLayout(leg).value.amountOffset;
       LayoutInBounds(leg);
       && leg.data[offset..offset + 8] == Le64(amount)
       && offset + 16 <= |leg.data|
       && leg.data[offset + 8..offset + 16] == Le64(floor)
  }

  lemma LaunchLabSpends(user: Pubkey, p: LaunchLabKeys, amountIn: u64, minOut: u64, userBase: Pubkey, userQuote: Pubkey)
    ensures SpendsExactly(LaunchLabBuyLeg(user, p, amountIn, minOut, userBase, userQuote), user, userQuote, userBase,
                          amountIn, minOut)
  {
    var leg := LaunchLabBuyLeg(user, p, amountIn, minOut, userBase, userQuote);
    assert leg.data[..8] == BUY_EXACT_IN_LAUNCHLAB;
    assert leg.data[8..16] == Le64(amountIn);
    assert leg.data[16..24] == Le64(minOut);
    assert leg.data[24..32] == [0, 0, 0, 0, 0, 0, 0, 0];
  }

  lemma CpmmSpends(user: Pubkey, p: CpmmKeys, amountIn: u64, minOut: u64, inputMint: Pubkey, outputMint: Pubkey,
                   userInput: Pubkey, userOutput: Pubkey)
    requires CpmmSwapLeg(user, p, amountIn, minOut, inputMint, outputMint, userInput, userOutput).Success?
    ensures SpendsExactly(CpmmSwapLeg(user, p, amountIn, minOut, inputMint, outputMint, userInput, userOutput).value,
                          user, userInput, userOutput, amountIn, minOut)
  {
    var leg := CpmmSwapLeg(user, p, amountIn, minOut, inputMint, outputMint, userInput, userOutput).value;
    assert leg.data[..8] == CPMM_SWAP_BASE_IN;
    assert leg.data[8..16] == Le64(amountIn);
    assert leg.data[16..24] == Le64(minOut);
  }

  /** The fixed PumpSwap slots, and room for every optional account. */
  lemma PumpSwapSlots(d: Derivation, user: Pubkey, p: PumpSwapKeys, isBuy: bool)
    requires PumpSwapMetas(d, user, p, isBuy).Success?
    ensures var accounts := PumpSwapMetas(d, user, p, isBuy).value;
            && 19 <= |accounts| <= 28
            && accounts[1] == AccountMeta(user, true, true)
            && accounts[5] == Writable(d.ata(user, p.baseMint, p.baseProgram))
            && accounts[6] == Writable(d.ata(user, p.quoteMint, p.quoteProgram))
  {
    var accounts := PumpSwapMetas(d, user, p, isBuy).value;
    assert accounts[..19] == PumpSwapFixed(d, user, p);
    assert accounts[1] == accounts[..19][1] && accounts[5] == accounts[..19][5] && accounts[6] == accounts[..19][6];
  }

  lemma PumpSwapBuySpends(d: Derivation, user: Pubkey, p: PumpSwapKeys, quoteIn: u64, minOut: u64)
    requires PumpSwapBuyLeg(d, user, p, quoteIn, minOut).Success?
    ensures SpendsExactly(PumpSwapBuyLeg(d, user, p, quoteIn, minOut).value, user,
                          d.ata(user, p.quoteMint, p.quoteProgram), d.ata(user, p.baseMint, p.baseProgram), quoteIn,
                          minOut)
  {
    var leg := PumpSwapBuyLeg(d, user, p, quoteIn, minOut).value;
    PumpSwapSlots(d, user, p, true);
    assert leg.data[..8] == PUMPSWAP_BUY_EXACT_QUOTE_IN;
    assert leg.data[8..16] == Le64(quoteIn);
    assert leg.data[16..24] == Le64(minOut);
  }

  lemma PumpSwapSellSpends(d: Derivation, user: Pubkey, p: PumpSwapKeys, baseIn: u64, minOut: u64)
    requires PumpSwapSellLeg(d, user, p, baseIn, minOut).Success?
    ensures SpendsExactly(PumpSwapSellLeg(d, user, p, baseIn, minOut).value, user,
                          d.ata(user, p.baseMint, p.baseProgram), d.ata(user, p.quoteMint, p.quoteProgram), baseIn,
                          minOut)
  {
    var leg := PumpSwapSellLeg(d, user, p, baseIn, minOut).value;
    PumpSwapSlots(d, user, p, false);
    assert leg.data[..8] == PUMPSWAP_SELL;
    assert leg.data[8..16] == Le64(baseIn);
    assert leg.data[16..24] == Le64(minOut);
  }

  lemma AmmV4Spends(d: Derivation, user: Pubkey, p: AmmV4Keys, amountIn: u64, minOut: u64, inputMint: Pubkey)
    requires AmmV4SwapLeg(d, user, p, amountIn, minOut, inputMint).Success?
    ensures var outputMint := if inputMint == p.coinMint then p.pcMint else p.coinMint;
            SpendsExactly(AmmV4SwapLeg(d, user, p, amountIn, minOut, inputMint).value, user,
                          d.ata(user, inputMint, TOKEN_PROGRAM), d.ata(user, outputMint, TOKEN_PROGRAM), amountIn,
                          minOut)
  {
    var leg := AmmV4SwapLeg(d, user, p, amountIn, minOut, inputMint).value;
    assert leg.data[0] == RAYDIUM_AMM_V4_SWAP_BASE_IN_V2;
    assert leg.data[1..9] == Le64(amountIn);
    assert leg.data[9..17] == Le64(minOut);
  }

  /** A DAMM leg is classified exactly when its pool is in exact-input mode. */
  lemma DammSpends(d: Derivation, user: Pubkey, p: DammKeys, amountIn: u64, minOut: u64, inputMint: Pubkey)
    requires DammSwapLeg(d, user, p, amountIn, minOut, inputMint).Success?
    ensures var leg := DammSwapLeg(d, user, p, amountIn, minOut, inputMint).value;
            var sides := SidesOf(inputMint, Token(p.mintA, p.programA), Token(p.mintB, p.programB)).value;
            && (DynamicLegLayout(leg).Some? <==> p.swapMode == METEORA_DAMM_V2_EXACT_IN)
            && (p.swapMode == METEORA_DAMM_V2_EXACT_IN ==>
                  SpendsExactly(leg, user, UserAta(d, user, sides.input), UserAta(d, user, sides.output), amountIn,
                                minOut))
  {
    var leg := DammSwapLeg(d, user, p, amountIn, minOut, inputMint).value;
    assert leg.data[..8] == METEORA_DAMM_V2_SWAP2;
    assert leg.data[8..16] == Le64(amountIn);
    assert leg.data[16..24] == Le64(minOut);
    assert leg.data[24] == p.swapMode;
  }

  lemma ClmmSpends(d: Derivation, user: Pubkey, p: ClmmKeys, amountIn: u64, minOut: u64, inputMint: Pubkey)
    requires ClmmSwapLeg(d, user, p, amountIn, minOut, inputMint).Success?
    ensures var sides := SidesOf(inputMint, Token(p.mint0, p.program0), Token(p.mint1, p.program1)).value;
            SpendsExactly(ClmmSwapLeg(d, user, p, amountIn, minOut, inputMint).value, user,
                          UserAta(d, user, sides.input), UserAta(d, user, sides.output), amountIn, minOut)
  {
    var leg := ClmmSwapLeg(d, user, p, amountIn, minOut, inputMint).value;
    assert leg.data[..8] == CLMM_SWAP_V2;
    assert leg.data[8..16] == Le64(amountIn);
    assert leg.data[16..24] == Le64(minOut);
    assert leg.data[40] == 1;
  }

  lemma WhirlpoolDataFields(data: seq<u8>, head: seq<u8>, limit: seq<u8>, flags: seq<u8>, rest: seq<u8>)
    requires |head| == 24 && |limit| == 16 && |flags| == 2 && data == head + limit + flags + rest
    ensures data[..8] == head[..8] && data[8..16] == head[8..16] && data[16..24] == head[16..24]
    ensures data[40] == flags[0] && data[41] == flags[1]
    ensures |data| == 42 + |rest| && data[42..] == rest
  {
  }

  lemma WhirlpoolCount(data: seq<u8>, supplemental: u8)
    requires supplemental <= 3 && 42 <= |data| && data[42..] == WhirlpoolRemaining(supplemental)
    ensures WhirlpoolDynamicAccounts(data) == Some(15 + supplemental)
  {
    var rest := WhirlpoolRemaining(supplemental);
    if supplemental == 0 {
      assert data[42] == rest[0];
    } else {
      assert data[42..48] == rest[..6] == [1, 1, 0, 0, 0, 6];
      assert data[48] == rest[6];
    }
  }

  lemma WhirlpoolLayout(leg: Leg, aToB: bool, accounts: nat)
    requires leg.programId == ORCA_WHIRLPOOL_PROGRAM && 42 <= |leg.data|
    requires leg.data[..8] == WHIRLPOOL_SWAP_V2 && leg.data[40] == 1 && leg.data[41] == (if aToB then 1 else 0)
    requires WhirlpoolDynamicAccounts(leg.data) == Some(accounts)
    ensures DynamicLegLayout(leg) == Some(if aToB then Layout(7, 9, 3, 8, accounts) else Layout(9, 7, 3, 8, accounts))
  {
  }

  lemma WhirlpoolDataLayout(accounts: seq<AccountMeta>, amountIn: u64, minOut: u64, aToB: bool, supplemental: u8)
    requires supplemental <= 3
    ensures var leg := Leg(ORCA_WHIRLPOOL_PROGRAM, accounts, WhirlpoolData(amountIn, minOut, aToB, supplemental));
            && 43 <= |leg.data| <= 49
            && DynamicLegLayout(leg) == Some(if aToB then Layout(7, 9, 3, 8, 15 + supplemental)
                                             else Layout(9, 7, 3, 8, 15 + supplemental))
            && leg.data[8..16] == Le64(amountIn) && leg.data[16..24] == Le64(minOut)
  {
    var data := WhirlpoolData(amountIn, minOut, aToB, supplemental);
    WhirlpoolDataFields(data, SwapHead(WHIRLPOOL_SWAP_V2, amountIn, minOut), WhirlpoolLimit(aToB),
                        WhirlpoolFlags(aToB), WhirlpoolRemaining(supplemental));
    WhirlpoolCount(data, supplemental);
    WhirlpoolLayout(Leg(ORCA_WHIRLPOOL_PROGRAM, accounts, data), aToB, 15 + supplemental);
  }

  lemma WhirlpoolSpends(d: Derivation, user: Pubkey, p: WhirlpoolKeys, amountIn: u64, minOut: u64, inputMint: Pubkey)
    requires WhirlpoolSwapLeg(d, user, p, amountIn, minOut, inputMint).Success?
    ensures var sides := SidesOf(inputMint, Token(p.mintA, p.programA), Token(p.mintB, p.programB)).value;
            SpendsExactly(WhirlpoolSwapLeg(d, user, p, amountIn, minOut, inputMint).value, user,
                          UserAta(d, user, sides.input), UserAta(d, user, sides.output), amountIn, minOut)
  {
    var leg := WhirlpoolSwapLeg(d, user, p, amountIn, minOut, inputMint).value;
    var fixed := WhirlpoolFixed(d, user, p);
    assert leg.accounts[3] == fixed[3] && leg.accounts[7] == fixed[7] && leg.accounts[9] == fixed[9];
    assert |leg.accounts| == 15 + (|p.tickArrays| - 3);
    WhirlpoolDataLayout(leg.accounts, amountIn, minOut, inputMint == p.mintA, |p.tickArrays| - 3);
  }

  lemma DlmmSpends(d: Derivation, user: Pubkey, p: DlmmKeys, amountIn: u64, minOut: u64, inputMint: Pubkey)
    requires DlmmSwapLeg(d, user, p, amountIn, minOut, inputMint).Success?
    ensures var x, y := Token(p.mintX, p.programX), Token(p.mintY, p.programY);
            var sides := SidesOf(inputMint, x, y).value;
            var output := if sides.output.mint == p.mintX then x else y;
            SpendsExactly(DlmmSwapLeg(d, user, p, amountIn, minOut, inputMint).value, user,
                          UserAta(d, user, sides.input), UserAta(d, user, output), amountIn, minOut)
  {
    var leg := DlmmSwapLeg(d, user, p, amountIn, minOut, inputMint).value;
    assert leg.data[..8] == METEORA_DLMM_SWAP2;
    assert leg.data[8..16] == Le64(amountIn);
    assert leg.data[16..24] == Le64(minOut);
    assert leg.data[24..28] == [0, 0, 0, 0];
  }

  /** Once the router has written the real amount, the leg still spends exactly that. */
  lemma OverwrittenSpends(leg: Leg, user: Pubkey, input: Pubkey, output: Pubkey, placeholder: u64, amount: u64,
                          floor: u64)
    requires SpendsExactly(leg, user, input, output, placeholder, floor)
    ensures var offset := DynamicLegLayout(leg).value.amountOffset;
            && offset + 8 <= |leg.data|
            && SpendsExactly(leg.(data := Overwrite(leg.data, offset, Le64(amount))), user, input, output, amount,
                             floor)
  {
    OverwriteKeepsMatch(leg, user, input, output, false, amount);
    var offset := DynamicLegLayout(leg).value.amountOffset;
    assert Overwrite(leg.data, offset, Le64(amount))[offset + 8..offset + 16] == leg.data[offset + 8..offset + 16];
  }

  /** How many accounts each venue's leg must bring. */
  function RequiredAccounts(leg: Leg): nat {
    if leg.programId == RAYDIUM_AMM_V4_PROGRAM then 8
    else if leg.programId == METEORA_DAMM_V2_PROGRAM then 11
    else if leg.programId == RAYDIUM_CPMM_PROGRAM then 12
    else if leg.programId == ORCA_WHIRLPOOL_PROGRAM then 15 + if |leg.data| == 49 then leg.data[48] as nat else 0
    else 13
  }

  /** A leg cut short is refused exactly below its venue's number of accounts. */
  lemma ShortLegIsRefused(leg: Leg, user: Pubkey, input: Pubkey, output: Pubkey, amount: u64, floor: u64, n: nat)
    requires SpendsExactly(leg, user, input, output, amount, floor) && n <= |leg.accounts|
    ensures LegMatches(leg.(accounts := leg.accounts[..n]), user, input, output, false) <==> RequiredAccounts(leg) <= n
  {
    assert DynamicLegLayout(leg.(accounts := leg.accounts[..n])) == DynamicLegLayout(leg);
    LayoutInBounds(leg);
  }

  // ----- direction -----

  function SwapAt(metas: seq<AccountMeta>, i: nat, j: nat): (r: seq<AccountMeta>)
    requires i < |metas| && j < |metas|
    ensures |r| == |metas|
  {
    metas[i := metas[j]][j := metas[i]]
  }

  /** A vault, program and mint that belong together in the pool. */
  predicate CpmmSide(p: CpmmKeys, vault: AccountMeta, program: AccountMeta, mint: AccountMeta) {
    var side := (vault.pubkey, program.pubkey, mint.pubkey);
    side == (p.baseVault, p.baseProgram, p.baseMint) || side == (p.quoteVault, p.quoteProgram, p.quoteMint)
  }

  /** The leg with its sides exchanged. */
  function Reversed(leg: Leg): Leg
    requires |leg.accounts| == 13
  {
    leg.(accounts := SwapAt(SwapAt(SwapAt(SwapAt(leg.accounts, 4, 5), 6, 7), 8, 9), 10, 11))
  }

  lemma CpmmLegReversal(user: Pubkey, p: CpmmKeys, amountIn: u64, minOut: u64, input: Token, output: Token,
                        inputVault: Pubkey, outputVault: Pubkey, userInput: Pubkey, userOutput: Pubkey)
    ensures CpmmLeg(user, p, amountIn, minOut, output, input, outputVault, inputVault, userOutput, userInput)
            == Reversed(CpmmLeg(user, p, amountIn, minOut, input, output, inputVault, outputVault, userInput,
                                userOutput))
  {
  }

  lemma CpmmUsersReversal(user: Pubkey, p: CpmmKeys, amountIn: u64, minOut: u64, input: Token, output: Token,
                          inputVault: Pubkey, outputVault: Pubkey, userInput: Pubkey, userOutput: Pubkey)
    ensures var leg := CpmmLeg(user, p, amountIn, minOut, input, output, inputVault, outputVault, userInput,
                               userOutput);
            CpmmLeg(user, p, amountIn, minOut, input, output, inputVault, outputVault, userOutput, userInput)
            == leg.(accounts := SwapAt(leg.accounts, 4, 5))
  {
  }

  /** Each side of a CPMM swap names its own vault, program and mint, and reversing the swap exchanges
      exactly those and the user accounts. A pool of one mint with itself has only the base-to-quote
      direction, so there reversing exchanges the user accounts alone. */
  lemma CpmmReversal(user: Pubkey, p: CpmmKeys, amountIn: u64, minOut: u64, inputMint: Pubkey, outputMint: Pubkey,
                     userInput: Pubkey, userOutput: Pubkey)
    requires CpmmSwapLeg(user, p, amountIn, minOut, inputMint, outputMint, userInput, userOutput).Success?
    ensures var leg := CpmmSwapLeg(user, p, amountIn, minOut, inputMint, outputMint, userInput, userOutput).value;
            && |leg.accounts| == 13
            && leg.accounts[10].pubkey == inputMint && leg.accounts[11].pubkey == outputMint
            && CpmmSide(p, leg.accounts[6], leg.accounts[8], leg.accounts[10])
            && CpmmSide(p, leg.accounts[7], leg.accounts[9], leg.accounts[11])
            && CpmmSwapLeg(user, p, amountIn, minOut, outputMint, inputMint, userOutput, userInput)
               == Success(if p.baseMint == p.quoteMint then leg.(accounts := SwapAt(leg.accounts, 4, 5))
                          else Reversed(leg))
  {
    var base, quote := Token(p.baseMint, p.baseProgram), Token(p.quoteMint, p.quoteProgram);
    if p.baseMint == p.quoteMint {
      CpmmUsersReversal(user, p, amountIn, minOut, base, quote, p.baseVault, p.quoteVault, userInput, userOutput);
    } else if inputMint == p.baseMint {
      CpmmLegReversal(user, p, amountIn, minOut, base, quote, p.baseVault, p.quoteVault, userInput, userOutput);
    } else {
      CpmmLegReversal(user, p, amountIn, minOut, quote, base, p.quoteVault, p.baseVault, userInput, userOutput);
    }
  }

  /** A CLMM swap of mint 0 pays into its vault and out of the other, and reversing it exchanges exactly
      the user accounts, vaults and mints, and the limit price. In a pool of one mint with itself the two
      are the same swap. */
  lemma ClmmReversal(d: Derivation, user: Pubkey, p: ClmmKeys, amountIn: u64, minOut: u64)
    requires ClmmSwapLeg(d, user, p, amountIn, minOut, p.mint0).Success?
    ensures var leg := ClmmSwapLeg(d, user, p, amountIn, minOut, p.mint0).value;
            && 13 < |leg.accounts|
            && (leg.accounts[5].pubkey, leg.accounts[11].pubkey) == (p.vault0, p.mint0)
            && (leg.accounts[6].pubkey, leg.accounts[12].pubkey) == (p.vault1, p.mint1)
            && leg.data[24..40] == ClmmLimit(true)
            && ClmmSwapLeg(d, user, p, amountIn, minOut, p.mint1)
               == Success(if p.mint0 == p.mint1 then leg
                          else Leg(leg.programId, SwapAt(SwapAt(SwapAt(leg.accounts, 3, 4), 5, 6), 11, 12),
                                   Overwrite(leg.data, 24, ClmmLimit(false))))
  {
    var leg := ClmmSwapLeg(d, user, p, amountIn, minOut, p.mint0).value;
    var t0, t1 := Token(p.mint0, p.program0), Token(p.mint1, p.program1);
    var swapped := SwapAt(SwapAt(SwapAt(leg.accounts, 3, 4), 5, 6), 11, 12);
    assert swapped == ClmmFixed(d, user, p, Sides(t1, t0), false) + WritableAll(ClmmArrays(d, p));
    assert leg.data[24..40] == ClmmLimit(true);
    assert Overwrite(leg.data, 24, ClmmLimit(false)) == ClmmData(amountIn, minOut, false);
  }

  // ----- the CLMM bitmap -----

  lemma {:induction false} WithoutDrops(keys: seq<Pubkey>, key: Pubkey)
    ensures key !in Without(keys, key)
    ensures forall k :: k in keys && k != key <==> k in Without(keys, key)
    ensures multiset(Without(keys, key)) == multiset(keys)[key := 0]
  {
    if keys != [] {
      WithoutDrops(keys[1..], key);
      assert keys == [keys[0]] + keys[1..];
    }
  }

  lemma BitmapFirst(accounts: seq<AccountMeta>, fixed: seq<AccountMeta>, supplied: bool, others: seq<Pubkey>,
                    pda: Pubkey)
    requires pda !in others && |fixed| == 13
    requires accounts == fixed + WritableAll((if supplied then [pda] else []) + others)
    ensures var start := if supplied then 14 else 13;
            && |accounts| == start + |others|
            && (supplied ==> accounts[13] == Writable(pda))
            && accounts[start..] == WritableAll(others)
            && (forall i :: start <= i < |accounts| ==> accounts[i].pubkey != pda)
  {
    var start := if supplied then 14 else 13;
    forall i | start <= i < |accounts|
      ensures accounts[i] == Writable(others[i - start]) && others[i - start] != pda
    {
      assert others[i - start] in others;
    }
  }

  /** However often and wherever the tick arrays repeat the bitmap PDA, a built leg holds it once, at
      index 13, when it was supplied either way, and not at all otherwise; the other arrays follow
      in their order, within the account limit. */
  lemma ClmmBitmapIsNormalised(d: Derivation, user: Pubkey, p: ClmmKeys, amountIn: u64, minOut: u64, inputMint: Pubkey)
    requires ClmmSwapLeg(d, user, p, amountIn, minOut, inputMint).Success?
    ensures var pda := d.clmmBitmap(p.poolState);
            var accounts := ClmmSwapLeg(d, user, p, amountIn, minOut, inputMint).value.accounts;
            var supplied := p.bitmapExtension.Some? || pda in p.tickArrays;
            var start := if supplied then 14 else 13;
            && start < |accounts| <= MAX_LEG_ACCOUNTS
            && (supplied ==> accounts[13] == Writable(pda))
            && accounts[start..] == WritableAll(Without(p.tickArrays, pda))
            && (forall i :: start <= i < |accounts| ==> accounts[i].pubkey != pda)
  {
    var pda := d.clmmBitmap(p.poolState);
    var accounts := ClmmSwapLeg(d, user, p, amountIn, minOut, inputMint).value.accounts;
    var sides := SidesOf(inputMint, Token(p.mint0, p.program0), Token(p.mint1, p.program1)).value;
    WithoutDrops(p.tickArrays, pda);
    BitmapFirst(accounts, ClmmFixed(d, user, p, sides, inputMint == p.mint0),
                p.bitmapExtension.Some? || pda in p.tickArrays, Without(p.tickArrays, pda), pda);
  }
}
