/** The exact-input leg builders (crates/sdk/src/legs.rs). The pool records here are the address
    halves of the source's snapshots; derived addresses come from a `Derivation`. */
module Legs {
  import opened Wrappers
  import opened Arith
  import opened Bytes
  import opened Keys
  import opened DynamicLeg

  const MIN_SQRT_PRICE_X64: u128 := 4_295_048_016
  const MAX_SQRT_PRICE_X64: u128 := 79_226_673_521_066_979_257_578_248_091
  const WHIRLPOOL_MIN_SQRT_PRICE_X64: u128 := 4_295_048_016
  const WHIRLPOOL_MAX_SQRT_PRICE_X64: u128 := 79_226_673_515_401_279_992_447_579_055

  /** Address derivation, as functions of their seeds. The two PumpSwap searches may find nothing. */
  datatype Derivation = Derivation(
    ata: (Pubkey, Pubkey, Pubkey) -> Pubkey,
    clmmBitmap: Pubkey -> Pubkey,
    whirlpoolOracle: Pubkey -> Pubkey,
    dlmmBitmap: Pubkey -> Pubkey,
    dammEventAuthority: Pubkey,
    pumpSwapAccumulator: Pubkey -> Option<Pubkey>,
    pumpSwapPoolV2: Pubkey -> Option<Pubkey>)

  datatype LaunchLabKeys = LaunchLabKeys(
    globalConfig: Pubkey, platformConfig: Pubkey, poolState: Pubkey, baseVault: Pubkey, quoteVault: Pubkey,
    baseMint: Pubkey, quoteMint: Pubkey, baseProgram: Pubkey, quoteProgram: Pubkey,
    platformAccount: Pubkey, creatorAccount: Pubkey)

  datatype CpmmKeys = CpmmKeys(
    ammConfig: Pubkey, poolState: Pubkey, observationState: Pubkey, baseVault: Pubkey, quoteVault: Pubkey,
    baseMint: Pubkey, quoteMint: Pubkey, baseProgram: Pubkey, quoteProgram: Pubkey)

  /** `accountsValid` is the verdict of the external `validate_accounts`. */
  datatype PumpSwapKeys = PumpSwapKeys(
    pool: Pubkey, baseMint: Pubkey, quoteMint: Pubkey, baseProgram: Pubkey, quoteProgram: Pubkey,
    poolBaseAccount: Pubkey, poolQuoteAccount: Pubkey, creatorVaultAta: Pubkey, creatorVaultAuthority: Pubkey,
    coinCreator: Pubkey, isCashbackCoin: bool, protocolFeeRecipient: Pubkey, buybackFeeRecipient: Pubkey,
    accountsValid: bool)

  datatype AmmV4Keys = AmmV4Keys(
    amm: Pubkey, coinMint: Pubkey, pcMint: Pubkey, tokenCoin: Pubkey, tokenPc: Pubkey, tokenProgram: Pubkey)

  datatype DammKeys = DammKeys(
    pool: Pubkey, vaultA: Pubkey, vaultB: Pubkey, mintA: Pubkey, mintB: Pubkey, programA: Pubkey, programB: Pubkey,
    swapMode: u8, referral: Option<Pubkey>, includeRateLimiterSysvar: bool)

  datatype ClmmKeys = ClmmKeys(
    ammConfig: Pubkey, poolState: Pubkey, observationState: Pubkey, mint0: Pubkey, mint1: Pubkey,
    vault0: Pubkey, vault1: Pubkey, program0: Pubkey, program1: Pubkey,
    tickArrays: seq<Pubkey>, bitmapExtension: Option<Pubkey>)

  datatype WhirlpoolKeys = WhirlpoolKeys(
    whirlpool: Pubkey, mintA: Pubkey, mintB: Pubkey, vaultA: Pubkey, vaultB: Pubkey,
    programA: Pubkey, programB: Pubkey, tickArrays: seq<Pubkey>)

  datatype DlmmKeys = DlmmKeys(
    lbPair: Pubkey, bitmapExtension: Option<Pubkey>, reserveX: Pubkey, reserveY: Pubkey, mintX: Pubkey, mintY: Pubkey,
    programX: Pubkey, programY: Pubkey, oracle: Pubkey, binArrays: seq<Pubkey>)

  datatype LegError =
    | UnsupportedTokenProgram
    | MintsDoNotMatch
    | MintsUnset
    | UnsupportedSwapMode
    | MissingArrays
    | TooManyArrays
    | BitmapMismatch
    | InvalidAccounts
    | DerivationFailed
    | AccountBudgetExceeded

  /** A token with the program that owns its mint. */
  datatype Token = Token(mint: Pubkey, program: Pubkey)

  /** The sides of a swap: what is paid in and what comes out. */
  datatype Sides = Sides(input: Token, output: Token)

  // ----- shared checks and encodings -----

  predicate MintProgramValid(token: Token) {
    && (token.program == TOKEN_PROGRAM || token.program == TOKEN_2022_PROGRAM)
    && (token.mint == WSOL_MINT ==> token.program == TOKEN_PROGRAM)
  }

  predicate ArraysValid(keys: seq<Pubkey>) {
    forall i :: 0 <= i < |keys| ==> keys[i] != DEFAULT_KEY
  }

  function UserAta(d: Derivation, user: Pubkey, token: Token): Pubkey {
    d.ata(user, token.mint, token.program)
  }

  /** The sides of a pool with tokens `a` and `b`, by the input mint. */
  function SidesOf(inputMint: Pubkey, a: Token, b: Token): Result<Sides, LegError> {
    if inputMint == a.mint then Success(Sides(a, b))
    else if inputMint == b.mint then Success(Sides(b, a))
    else Failure(MintsDoNotMatch)
  }

  /** Discriminator, then two amounts. */
  function SwapHead(disc: seq<u8>, a: u64, b: u64): (s: seq<u8>)
    ensures |s| == |disc| + 16
    ensures s[..|disc|] == disc && s[|disc|..|disc| + 8] == Le64(a) && s[|disc| + 8..|disc| + 16] == Le64(b)
  {
    disc + Le64(a) + Le64(b)
  }

  method CopyInto(data: array<u8>, offset: nat, bytes: seq<u8>)
    requires offset + |bytes| <= data.Length
    modifies data
    ensures data[..] == old(data[..offset]) + bytes + old(data[offset + |bytes|..])
  {
    for i := 0 to |bytes|
      invariant forall j :: 0 <= j < i ==> data[offset + j] == bytes[j]
      invariant forall j :: 0 <= j < data.Length && !(offset <= j < offset + i) ==> data[j] == old(data[j])
    {
      data[offset + i] := bytes[i];
    }
  }

  /** Fills a zeroed buffer of `length` bytes with the head, as the builders fill theirs. */
  method FillHead(disc: seq<u8>, a: u64, b: u64, length: nat) returns (data: array<u8>)
    requires |disc| + 16 <= length
    ensures fresh(data)
    ensures data[..] == SwapHead(disc, a, b) + Zeros(length - |disc| - 16)
  {
    data := new u8[length](_ => 0);
    assert data[..] == Zeros(length);
    CopyInto(data, 0, disc);
    assert data[..] == disc + Zeros(length - |disc|);
    CopyInto(data, |disc|, Le64(a));
    assert data[..] == disc + Le64(a) + Zeros(length - |disc| - 8);
    CopyInto(data, |disc| + 8, Le64(b));
    assert data[..] == disc + Le64(a) + Le64(b) + Zeros(length - |disc| - 16);
  }

  // ----- LaunchLab -----

  function LaunchLabBuyLeg(user: Pubkey, p: LaunchLabKeys, amountIn: u64, minOut: u64, userBase: Pubkey,
                           userQuote: Pubkey): Leg {
    Leg(LAUNCHLAB_PROGRAM,
        [AccountMeta(user, true, true), Readonly(LAUNCHLAB_AUTHORITY), Readonly(p.globalConfig),
         Readonly(p.platformConfig), Writable(p.poolState), Writable(userBase), Writable(userQuote),
         Writable(p.baseVault), Writable(p.quoteVault), Readonly(p.baseMint), Readonly(p.quoteMint),
         Readonly(p.baseProgram), Readonly(p.quoteProgram), Readonly(LAUNCHLAB_EVENT_AUTHORITY),
         Readonly(LAUNCHLAB_PROGRAM), Readonly(SYSTEM_PROGRAM), Writable(p.platformAccount),
         Writable(p.creatorAccount)],
        SwapHead(BUY_EXACT_IN_LAUNCHLAB, amountIn, minOut) + Zeros(8))
  }

  // ----- Raydium CPMM -----

  function CpmmSwapLeg(user: Pubkey, p: CpmmKeys, amountIn: u64, minOut: u64, inputMint: Pubkey, outputMint: Pubkey,
                       userInput: Pubkey, userOutput: Pubkey): Result<Leg, LegError> {
    var base, quote := Token(p.baseMint, p.baseProgram), Token(p.quoteMint, p.quoteProgram);
    if !MintProgramValid(base) || !MintProgramValid(quote) then Failure(UnsupportedTokenProgram)
    else if inputMint == p.baseMint && outputMint == p.quoteMint then
      Success(CpmmLeg(user, p, amountIn, minOut, base, quote, p.baseVault, p.quoteVault, userInput, userOutput))
    else if inputMint == p.quoteMint && outputMint == p.baseMint then
      Success(CpmmLeg(user, p, amountIn, minOut, quote, base, p.quoteVault, p.baseVault, userInput, userOutput))
    else Failure(MintsDoNotMatch)
  }

  function CpmmLeg(user: Pubkey, p: CpmmKeys, amountIn: u64, minOut: u64, input: Token, output: Token,
                   inputVault: Pubkey, outputVault: Pubkey, userInput: Pubkey, userOutput: Pubkey): Leg {
    Leg(RAYDIUM_CPMM_PROGRAM,
        [AccountMeta(user, true, false), Readonly(RAYDIUM_CPMM_AUTHORITY), Readonly(p.ammConfig),
         Writable(p.poolState), Writable(userInput), Writable(userOutput), Writable(inputVault),
         Writable(outputVault), Readonly(input.program), Readonly(output.program), Readonly(input.mint),
         Readonly(output.mint), Writable(p.observationState)],
        SwapHead(CPMM_SWAP_BASE_IN, amountIn, minOut))
  }

  // ----- PumpSwap -----

  function PumpSwapFixed(d: Derivation, user: Pubkey, p: PumpSwapKeys): seq<AccountMeta> {
    [Writable(p.pool), AccountMeta(user, true, true), Readonly(PUMPSWAP_GLOBAL), Readonly(p.baseMint),
     Readonly(p.quoteMint), Writable(d.ata(user, p.baseMint, p.baseProgram)),
     Writable(d.ata(user, p.quoteMint, p.quoteProgram)), Writable(p.poolBaseAccount), Writable(p.poolQuoteAccount),
     Readonly(p.protocolFeeRecipient), Writable(d.ata(p.protocolFeeRecipient, p.quoteMint, p.quoteProgram)),
     Readonly(p.baseProgram), Readonly(p.quoteProgram), Readonly(SYSTEM_PROGRAM), Readonly(ASSOCIATED_TOKEN_PROGRAM),
     Readonly(PUMPSWAP_EVENT_AUTHORITY), Readonly(PUMPSWAP_PROGRAM), Writable(p.creatorVaultAta),
     Readonly(p.creatorVaultAuthority)]
  }

  function PumpSwapMetas(d: Derivation, user: Pubkey, p: PumpSwapKeys, isBuy: bool): Result<seq<AccountMeta>, LegError>
  {
    if !MintProgramValid(Token(p.baseMint, p.baseProgram)) || !MintProgramValid(Token(p.quoteMint, p.quoteProgram)) then
      Failure(UnsupportedTokenProgram)
    else if !p.accountsValid then Failure(InvalidAccounts)
    else if d.pumpSwapAccumulator(user).None? then Failure(DerivationFailed)
    else if p.coinCreator != DEFAULT_KEY && d.pumpSwapPoolV2(p.baseMint).None? then Failure(DerivationFailed)
    else
      var accumulator := d.pumpSwapAccumulator(user).value;
      Success(
        PumpSwapFixed(d, user, p)
        + (if isBuy then [Readonly(PUMPSWAP_GLOBAL_VOLUME_ACCUMULATOR), Writable(accumulator)] else [])
        + [Readonly(PUMPSWAP_FEE_CONFIG), Readonly(PUMPSWAP_FEE_PROGRAM)]
        + (if p.isCashbackCoin then
             [Writable(d.ata(accumulator, p.quoteMint, p.quoteProgram))]
             + (if isBuy then [] else [Writable(accumulator)])
           else [])
        + (if p.coinCreator != DEFAULT_KEY then [Readonly(d.pumpSwapPoolV2(p.baseMint).value)] else [])
        + [Readonly(p.buybackFeeRecipient), Writable(d.ata(p.buybackFeeRecipient, p.quoteMint, p.quoteProgram))])
  }

  /** The source's `pumpswap_accounts`, pushing the optional accounts in place; the account budget
      is never exceeded. */
  method PumpSwapAccounts(d: Derivation, user: Pubkey, p: PumpSwapKeys, isBuy: bool)
    returns (r: Result<seq<AccountMeta>, LegError>)
    ensures r == PumpSwapMetas(d, user, p, isBuy)
  {
    if !MintProgramValid(Token(p.baseMint, p.baseProgram)) || !MintProgramValid(Token(p.quoteMint, p.quoteProgram)) {
      return Failure(UnsupportedTokenProgram);
    }
    if !p.accountsValid {
      return Failure(InvalidAccounts);
    }
    var accounts := PumpSwapFixed(d, user, p);
    if d.pumpSwapAccumulator(user).None? {
      return Failure(DerivationFailed);
    }
    var accumulator := d.pumpSwapAccumulator(user).value;
    if isBuy {
      accounts := accounts + [Readonly(PUMPSWAP_GLOBAL_VOLUME_ACCUMULATOR), Writable(accumulator)];
    }
    ghost var volume := if isBuy then [Readonly(PUMPSWAP_GLOBAL_VOLUME_ACCUMULATOR), Writable(accumulator)] else [];
    assert accounts == PumpSwapFixed(d, user, p) + volume;
    accounts := accounts + [Readonly(PUMPSWAP_FEE_CONFIG), Readonly(PUMPSWAP_FEE_PROGRAM)];
    ghost var fees := accounts;
    ghost var ata := [Writable(d.ata(accumulator, p.quoteMint, p.quoteProgram))];
    ghost var extra := if p.isCashbackCoin then ata + (if isBuy then [] else [Writable(accumulator)]) else [];
    if p.isCashbackCoin {
      var cashback := [Writable(d.ata(accumulator, p.quoteMint, p.quoteProgram))];
      if !isBuy {
        cashback := cashback + [Writable(accumulator)];
      }
      assert cashback == extra;
      accounts := accounts + cashback;
    }
    assert accounts == fees + extra;
    ghost var cashbacked := accounts;
    ghost var v2 := if p.coinCreator != DEFAULT_KEY && d.pumpSwapPoolV2(p.baseMint).Some?
                    then [Readonly(d.pumpSwapPoolV2(p.baseMint).value)] else [];
    if p.coinCreator != DEFAULT_KEY {
      if d.pumpSwapPoolV2(p.baseMint).None? {
        return Failure(DerivationFailed);
      }
      accounts := accounts + [Readonly(d.pumpSwapPoolV2(p.baseMint).value)];
    }
    assert accounts == cashbacked + v2;
    accounts := accounts + [Readonly(p.buybackFeeRecipient),
                            Writable(d.ata(p.buybackFeeRecipient, p.quoteMint, p.quoteProgram))];
    if |accounts| == 0 || |accounts| > MAX_LEG_ACCOUNTS {
      return Failure(AccountBudgetExceeded);
    }
    return Success(accounts);
  }

  function PumpSwapBuyLeg(d: Derivation, user: Pubkey, p: PumpSwapKeys, quoteIn: u64, minBaseOut: u64):
    Result<Leg, LegError>
  {
    var accounts :- PumpSwapMetas(d, user, p, true);
    Success(Leg(PUMPSWAP_PROGRAM, accounts, SwapHead(PUMPSWAP_BUY_EXACT_QUOTE_IN, quoteIn, minBaseOut) + Byte(1)))
  }

  function PumpSwapSellLeg(d: Derivation, user: Pubkey, p: PumpSwapKeys, baseIn: u64, minQuoteOut: u64):
    Result<Leg, LegError>
  {
    var accounts :- PumpSwapMetas(d, user, p, false);
    Success(Leg(PUMPSWAP_PROGRAM, accounts, SwapHead(PUMPSWAP_SELL, baseIn, minQuoteOut)))
  }

  method BuildPumpSwapBuyLeg(d: Derivation, user: Pubkey, p: PumpSwapKeys, quoteIn: u64, minBaseOut: u64)
    returns (r: Result<Leg, LegError>)
    ensures r == PumpSwapBuyLeg(d, user, p, quoteIn, minBaseOut)
  {
    var data := FillHead(PUMPSWAP_BUY_EXACT_QUOTE_IN, quoteIn, minBaseOut, 25);
    data[24] := 1;
    assert data[..] == SwapHead(PUMPSWAP_BUY_EXACT_QUOTE_IN, quoteIn, minBaseOut) + Byte(1);
    var accounts :- PumpSwapAccounts(d, user, p, true);
    return Success(Leg(PUMPSWAP_PROGRAM, accounts, data[..]));
  }

  // ----- Raydium AMM V4 -----

  function AmmV4SwapLeg(d: Derivation, user: Pubkey, p: AmmV4Keys, amountIn: u64, minOut: u64, inputMint: Pubkey):
    Result<Leg, LegError>
  {
    if p.coinMint == DEFAULT_KEY || p.pcMint == DEFAULT_KEY then Failure(MintsUnset)
    else
      var sides :- SidesOf(inputMint, Token(p.coinMint, TOKEN_PROGRAM), Token(p.pcMint, TOKEN_PROGRAM));
      if p.tokenProgram != DEFAULT_KEY && p.tokenProgram != TOKEN_PROGRAM then Failure(UnsupportedTokenProgram)
      else
        Success(Leg(RAYDIUM_AMM_V4_PROGRAM,
                    [Readonly(TOKEN_PROGRAM), Writable(p.amm), Readonly(RAYDIUM_AMM_V4_AUTHORITY),
                     Writable(p.tokenCoin), Writable(p.tokenPc), Writable(UserAta(d, user, sides.input)),
                     Writable(UserAta(d, user, sides.output)), AccountMeta(user, true, false)],
                    SwapHead([RAYDIUM_AMM_V4_SWAP_BASE_IN_V2], amountIn, minOut)))
  }

  /** The AMM V4 buffer, whose amounts are written before its tag. */
  method FillAmmV4Data(amountIn: u64, minOut: u64) returns (data: array<u8>)
    ensures data[..] == SwapHead([RAYDIUM_AMM_V4_SWAP_BASE_IN_V2], amountIn, minOut)
  {
    data := new u8[17](_ => 0);
    CopyInto(data, 1, Le64(amountIn));
    CopyInto(data, 9, Le64(minOut));
    data[0] := RAYDIUM_AMM_V4_SWAP_BASE_IN_V2;
  }

  // ----- Meteora DAMM v2 -----

  function DammSwapLeg(d: Derivation, user: Pubkey, p: DammKeys, amountIn: u64, minOut: u64, inputMint: Pubkey):
    Result<Leg, LegError>
  {
    var a, b := Token(p.mintA, p.programA), Token(p.mintB, p.programB);
    if !MintProgramValid(a) || !MintProgramValid(b) then Failure(UnsupportedTokenProgram)
    else if p.swapMode != METEORA_DAMM_V2_EXACT_IN && p.swapMode != METEORA_DAMM_V2_EXACT_OUT then
      Failure(UnsupportedSwapMode)
    else
      var sides :- SidesOf(inputMint, a, b);
      Success(Leg(METEORA_DAMM_V2_PROGRAM,
                  [Readonly(METEORA_DAMM_V2_AUTHORITY), Writable(p.pool), Writable(UserAta(d, user, sides.input)),
                   Writable(UserAta(d, user, sides.output)), Writable(p.vaultA), Writable(p.vaultB),
                   Readonly(p.mintA), Readonly(p.mintB), AccountMeta(user, true, false),
                   Readonly(p.programA), Readonly(p.programB)]
                  + [DammReferral(p), Readonly(d.dammEventAuthority), Readonly(METEORA_DAMM_V2_PROGRAM)]
                  + (if p.includeRateLimiterSysvar then [Readonly(SYSVAR_INSTRUCTIONS)] else []),
                  SwapHead(METEORA_DAMM_V2_SWAP2, amountIn, minOut) + Byte(p.swapMode)))
  }

  method FillDammData(amountIn: u64, minOut: u64, swapMode: u8) returns (data: array<u8>)
    ensures data[..] == SwapHead(METEORA_DAMM_V2_SWAP2, amountIn, minOut) + Byte(swapMode)
  {
    data := FillHead(METEORA_DAMM_V2_SWAP2, amountIn, minOut, 25);
    data[24] := swapMode;
  }

  function DammReferral(p: DammKeys): AccountMeta {
    if p.referral.Some? && p.referral.value != DEFAULT_KEY && p.referral.value != METEORA_DAMM_V2_PROGRAM
    then Writable(p.referral.value) else Readonly(METEORA_DAMM_V2_PROGRAM)
  }

  // ----- Raydium CLMM -----

  /** The keys other than `key`, in their order. */
  function Without(keys: seq<Pubkey>, key: Pubkey): seq<Pubkey> {
    if keys == [] then []
    else if keys[0] == key then Without(keys[1..], key)
    else [keys[0]] + Without(keys[1..], key)
  }

  /** The tick-array accounts of a CLMM leg: the bitmap extension once, if supplied either way, then
      the other arrays. */
  function ClmmArrays(d: Derivation, p: ClmmKeys): seq<Pubkey> {
    var pda := d.clmmBitmap(p.poolState);
    (if p.bitmapExtension.Some? || pda in p.tickArrays then [pda] else []) + Without(p.tickArrays, pda)
  }

  function ClmmFixed(d: Derivation, user: Pubkey, p: ClmmKeys, sides: Sides, zeroForOne: bool):
    (metas: seq<AccountMeta>)
    ensures |metas| == 13
  {
    var inputVault, outputVault := if zeroForOne then p.vault0 else p.vault1, if zeroForOne then p.vault1 else p.vault0;
    [AccountMeta(user, true, false), Readonly(p.ammConfig), Writable(p.poolState),
     Writable(UserAta(d, user, sides.input)), Writable(UserAta(d, user, sides.output)), Writable(inputVault),
     Writable(outputVault), Writable(p.observationState), Readonly(TOKEN_PROGRAM), Readonly(TOKEN_2022_PROGRAM),
     Readonly(MEMO_PROGRAM), Readonly(sides.input.mint), Readonly(sides.output.mint)]
  }

  function ClmmLimit(zeroForOne: bool): (s: seq<u8>)
    ensures |s| == 16
  {
    var limit := if zeroForOne then MIN_SQRT_PRICE_X64 + 1 else MAX_SQRT_PRICE_X64 - 1;
    LeBytes(16, limit)
  }

  function ClmmData(amountIn: u64, minOut: u64, zeroForOne: bool): seq<u8> {
    SwapHead(CLMM_SWAP_V2, amountIn, minOut) + ClmmLimit(zeroForOne) + Byte(1)
  }

  function ClmmSwapLeg(d: Derivation, user: Pubkey, p: ClmmKeys, amountIn: u64, minOut: u64, inputMint: Pubkey):
    Result<Leg, LegError>
  {
    var t0, t1 := Token(p.mint0, p.program0), Token(p.mint1, p.program1);
    var pda := d.clmmBitmap(p.poolState);
    if !MintProgramValid(t0) || !MintProgramValid(t1) then Failure(UnsupportedTokenProgram)
    else if p.bitmapExtension.Some? && p.bitmapExtension.value != pda then Failure(BitmapMismatch)
    else if Without(p.tickArrays, pda) == [] || !ArraysValid(Without(p.tickArrays, pda)) then Failure(MissingArrays)
    else
      var sides :- SidesOf(inputMint, t0, t1);
      var zeroForOne := inputMint == p.mint0;
      var accounts := ClmmFixed(d, user, p, sides, zeroForOne) + WritableAll(ClmmArrays(d, p));
      if |accounts| > MAX_LEG_ACCOUNTS then Failure(AccountBudgetExceeded)
      else Success(Leg(RAYDIUM_CLMM_PROGRAM, accounts, ClmmData(amountIn, minOut, zeroForOne)))
  }

  /** The loop of the CLMM builder: splits the bitmap extension off the tick arrays. */
  method SplitBitmap(keys: seq<Pubkey>, pda: Pubkey, supplied: Option<Pubkey>)
    returns (bitmap: Option<Pubkey>, tickArrays: seq<Pubkey>)
    requires supplied.Some? ==> supplied.value == pda
    ensures tickArrays == Without(keys, pda)
    ensures bitmap == if supplied.Some? || pda in keys then Some(pda) else None
  {
    bitmap, tickArrays := supplied, [];
    for i := 0 to |keys|
      invariant tickArrays + Without(keys[i..], pda) == Without(keys, pda)
      invariant bitmap == if supplied.Some? || pda in keys[..i] then Some(pda) else None
    {
      assert keys[i..][1..] == keys[i + 1..];
      assert keys[..i + 1] == keys[..i] + [keys[i]];
      if keys[i] == pda {
        bitmap := Some(keys[i]);
      } else {
        tickArrays := tickArrays + [keys[i]];
      }
    }
    assert keys[..|keys|] == keys;
  }

  method FillClmmData(amountIn: u64, minOut: u64, zeroForOne: bool) returns (data: array<u8>)
    ensures data[..] == ClmmData(amountIn, minOut, zeroForOne)
  {
    data := FillHead(CLMM_SWAP_V2, amountIn, minOut, 41);
    CopyInto(data, 24, ClmmLimit(zeroForOne));
    data[40] := 1;
  }

  method PushClmmArrays(fixed: seq<AccountMeta>, bitmap: Option<Pubkey>, tickArrays: seq<Pubkey>)
    returns (accounts: seq<AccountMeta>)
    ensures accounts == fixed + WritableAll((if bitmap.Some? then [bitmap.value] else []) + tickArrays)
  {
    accounts := fixed;
    if bitmap.Some? {
      accounts := accounts + [Writable(bitmap.value)];
    }
    accounts := accounts + WritableAll(tickArrays);
  }

  /** The source's `raydium_clmm_swap_leg`. */
  method BuildClmmSwapLeg(d: Derivation, user: Pubkey, p: ClmmKeys, amountIn: u64, minOut: u64, inputMint: Pubkey)
    returns (r: Result<Leg, LegError>)
    ensures r == ClmmSwapLeg(d, user, p, amountIn, minOut, inputMint)
  {
    var t0, t1 := Token(p.mint0, p.program0), Token(p.mint1, p.program1);
    if !MintProgramValid(t0) || !MintProgramValid(t1) {
      return Failure(UnsupportedTokenProgram);
    }
    var pda := d.clmmBitmap(p.poolState);
    if p.bitmapExtension.Some? && p.bitmapExtension.value != pda {
      return Failure(BitmapMismatch);
    }
    var bitmap, tickArrays := SplitBitmap(p.tickArrays, pda, p.bitmapExtension);
    if tickArrays == [] || !ArraysValid(tickArrays) {
      return Failure(MissingArrays);
    }
    var sides :- SidesOf(inputMint, t0, t1);
    var zeroForOne := inputMint == p.mint0;
    var data := FillClmmData(amountIn, minOut, zeroForOne);
    var accounts := PushClmmArrays(ClmmFixed(d, user, p, sides, zeroForOne), bitmap, tickArrays);
    if |accounts| == 0 || |accounts| > MAX_LEG_ACCOUNTS {
      return Failure(AccountBudgetExceeded);
    }
    return Success(Leg(RAYDIUM_CLMM_PROGRAM, accounts, data[..]));
  }

  // ----- Orca Whirlpool -----

  function WhirlpoolLimit(aToB: bool): (s: seq<u8>)
    ensures |s| == 16
  {
    var limit := if aToB then WHIRLPOOL_MIN_SQRT_PRICE_X64 else WHIRLPOOL_MAX_SQRT_PRICE_X64;
    LeBytes(16, limit)
  }

  /** Exact-in, and the direction. */
  function WhirlpoolFlags(aToB: bool): seq<u8> {
    [1, if aToB then 1 else 0]
  }

  /** The optional remaining-accounts info: none, or one slice of supplemental tick arrays. */
  function WhirlpoolRemaining(supplemental: nat): seq<u8> {
    if supplemental == 0 then [0] else [1, 1, 0, 0, 0, 6, supplemental % 0x100]
  }

  function WhirlpoolData(amountIn: u64, minOut: u64, aToB: bool, supplemental: nat): seq<u8> {
    SwapHead(WHIRLPOOL_SWAP_V2, amountIn, minOut) + WhirlpoolLimit(aToB) + WhirlpoolFlags(aToB)
    + WhirlpoolRemaining(supplemental)
  }

  method PushWhirlpoolRemaining(prefix: seq<u8>, supplemental: nat) returns (data: seq<u8>)
    ensures data == prefix + WhirlpoolRemaining(supplemental)
  {
    var none: seq<u8>, some: seq<u8>, one: seq<u8>, kind: seq<u8> := [0], [1], [1, 0, 0, 0], [6];
    var count: u8 := supplemental % 0x100;
    if supplemental == 0 {
      return prefix + none;
    }
    data := prefix + some;
    data := data + one;
    data := data + kind;
    data := data + Byte(count);
    assert WhirlpoolRemaining(supplemental) == some + one + kind + Byte(count);
  }

  /** The Whirlpool data, extended step by step, ending in the optional remaining-accounts info. */
  method PushWhirlpoolData(amountIn: u64, minOut: u64, aToB: bool, supplemental: nat) returns (data: seq<u8>)
    ensures data == WhirlpoolData(amountIn, minOut, aToB, supplemental)
  {
    data := SwapHead(WHIRLPOOL_SWAP_V2, amountIn, minOut);
    data := data + WhirlpoolLimit(aToB);
    var exactIn: u8, direction: u8 := 1, if aToB then 1 else 0;
    ghost var before := data;
    data := data + Byte(exactIn);
    data := data + Byte(direction);
    assert data == before + WhirlpoolFlags(aToB);
    data := PushWhirlpoolRemaining(data, supplemental);
  }

  function WhirlpoolFixed(d: Derivation, user: Pubkey, p: WhirlpoolKeys): (metas: seq<AccountMeta>)
    requires 3 <= |p.tickArrays|
    ensures |metas| == 15
  {
    [Readonly(p.programA), Readonly(p.programB), Readonly(MEMO_PROGRAM), AccountMeta(user, true, false),
     Writable(p.whirlpool), Readonly(p.mintA), Readonly(p.mintB), Writable(d.ata(user, p.mintA, p.programA)),
     Writable(p.vaultA), Writable(d.ata(user, p.mintB, p.programB)), Writable(p.vaultB), Writable(p.tickArrays[0]),
     Writable(p.tickArrays[1]), Writable(p.tickArrays[2]), Writable(d.whirlpoolOracle(p.whirlpool))]
  }

  function WhirlpoolSwapLeg(d: Derivation, user: Pubkey, p: WhirlpoolKeys, amountIn: u64, minOut: u64,
                            inputMint: Pubkey): Result<Leg, LegError>
  {
    var a, b := Token(p.mintA, p.programA), Token(p.mintB, p.programB);
    if !MintProgramValid(a) || !MintProgramValid(b) then Failure(UnsupportedTokenProgram)
    else if |p.tickArrays| < 3 then Failure(MissingArrays)
    else if |p.tickArrays| > 6 then Failure(TooManyArrays)
    else if !ArraysValid(p.tickArrays) then Failure(MissingArrays)
    else
      var sides :- SidesOf(inputMint, a, b);
      Success(Leg(ORCA_WHIRLPOOL_PROGRAM, WhirlpoolFixed(d, user, p) + WritableAll(p.tickArrays[3..]),
                  WhirlpoolData(amountIn, minOut, inputMint == p.mintA, |p.tickArrays| - 3)))
  }

  // ----- Meteora DLMM -----

  method FillDlmmData(amountIn: u64, minOut: u64) returns (data: array<u8>)
    ensures data[..] == SwapHead(METEORA_DLMM_SWAP2, amountIn, minOut) + Zeros(4)
  {
    data := FillHead(METEORA_DLMM_SWAP2, amountIn, minOut, 28);
  }

  function DlmmFixed(d: Derivation, user: Pubkey, p: DlmmKeys, input: Token, output: Token): (metas: seq<AccountMeta>)
    ensures |metas| == 16
  {
    var bitmap := if p.bitmapExtension.Some? && p.bitmapExtension.value != METEORA_DLMM_PROGRAM
                  then Writable(p.bitmapExtension.value) else Readonly(METEORA_DLMM_PROGRAM);
    [Writable(p.lbPair), bitmap, Writable(p.reserveX), Writable(p.reserveY),
     Writable(UserAta(d, user, input)), Writable(UserAta(d, user, output)), Readonly(p.mintX),
     Readonly(p.mintY), Writable(p.oracle), Readonly(METEORA_DLMM_PROGRAM), AccountMeta(user, true, false),
     Readonly(p.programX), Readonly(p.programY), Readonly(MEMO_PROGRAM), Readonly(METEORA_DLMM_EVENT_AUTHORITY),
     Readonly(METEORA_DLMM_PROGRAM)]
  }

  function DlmmSwapLeg(d: Derivation, user: Pubkey, p: DlmmKeys, amountIn: u64, minOut: u64, inputMint: Pubkey):
    Result<Leg, LegError>
  {
    var x, y := Token(p.mintX, p.programX), Token(p.mintY, p.programY);
    if !MintProgramValid(x) || !MintProgramValid(y) then Failure(UnsupportedTokenProgram)
    else if p.binArrays == [] || !ArraysValid(p.binArrays) then Failure(MissingArrays)
    else if p.bitmapExtension.Some? && p.bitmapExtension.value != d.dlmmBitmap(p.lbPair)
            && p.bitmapExtension.value != METEORA_DLMM_PROGRAM then Failure(BitmapMismatch)
    else
      var sides :- SidesOf(inputMint, x, y);
      // The output program is looked up by mint, so equal mints take the X program on both sides.
      var output := if sides.output.mint == p.mintX then x else y;
      var accounts := DlmmFixed(d, user, p, sides.input, output) + WritableAll(p.binArrays);
      if |accounts| > MAX_LEG_ACCOUNTS then Failure(AccountBudgetExceeded)
      else Success(Leg(METEORA_DLMM_PROGRAM, accounts, SwapHead(METEORA_DLMM_SWAP2, amountIn, minOut) + Zeros(4)))
  }
}
