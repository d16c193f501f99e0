/** The nine exact-input swaps that the router may overwrite, venue by venue
    (crates/sdk/src/route_ix.rs:35-146). */
module DynamicForms {
  import opened Wrappers
  import opened Arith
  import opened Bytes
  import opened Keys
  import opened DynamicLeg

  /** `length` bytes: a discriminator, two amounts, and the venue's own tail. */
  predicate Carries(data: seq<u8>, disc: seq<u8>, amount: u64, floor: u64, length: nat)
    requires |disc| + 16 <= length
  {
    && |data| == length && data[..|disc|] == disc
    && data[|disc|..|disc| + 8] == Le64(amount) && data[|disc| + 8..|disc| + 16] == Le64(floor)
  }

  /** Among at least `count` accounts, the payer signs at one place and two writable token accounts stand at
      two others. */
  predicate Stands(leg: Leg, payer: Pubkey, payerAt: nat, input: Pubkey, inputAt: nat, output: Pubkey, outputAt: nat,
                   count: nat)
    requires payerAt < count && inputAt < count && outputAt < count
  {
    && count <= |leg.accounts|
    && leg.accounts[payerAt].pubkey == payer && leg.accounts[payerAt].isSigner
    && leg.accounts[inputAt].pubkey == input && leg.accounts[inputAt].isWritable
    && leg.accounts[outputAt].pubkey == output && leg.accounts[outputAt].isWritable
  }

  /** Meteora's two venues share a discriminator, and so do the two concentrated-liquidity ones. */
  const METEORA_SWAP2: seq<u8> := [65, 75, 63, 76, 235, 91, 91, 136]
  const CLMM_SWAP: seq<u8> := [43, 4, 237, 11, 26, 201, 30, 98]

  /** The leg is one of the venues' exact-input swaps: `payer` spends `amount` of `input` on at least `floor` of
      `output`. */
  predicate Swaps(leg: Leg, payer: Pubkey, input: Pubkey, output: Pubkey, amount: u64, floor: u64) {
    var data := leg.data;
    if leg.programId == LAUNCHLAB_PROGRAM then
      && Carries(data, [250, 234, 13, 123, 213, 156, 19, 236], amount, floor, 32)
      && data[24..] == [0, 0, 0, 0, 0, 0, 0, 0]
      && Stands(leg, payer, 0, input, 6, output, 5, 13)
    else if leg.programId == RAYDIUM_CPMM_PROGRAM then
      && Carries(data, [143, 190, 90, 218, 196, 30, 51, 222], amount, floor, 24)
      && Stands(leg, payer, 0, input, 4, output, 5, 12)
    else if leg.programId == PUMPSWAP_PROGRAM then
      || (&& Carries(data, [198, 46, 21, 82, 180, 217, 232, 112], amount, floor, 25) && data[24] <= 1
          && Stands(leg, payer, 1, input, 6, output, 5, 13))
      || (&& Carries(data, [51, 230, 133, 164, 1, 127, 131, 173], amount, floor, 24)
          && Stands(leg, payer, 1, input, 5, output, 6, 13))
    else if leg.programId == RAYDIUM_AMM_V4_PROGRAM then
      Carries(data, [16], amount, floor, 17) && Stands(leg, payer, 7, input, 5, output, 6, 8)
    else if leg.programId == RAYDIUM_CLMM_PROGRAM then
      && Carries(data, CLMM_SWAP, amount, floor, 41) && data[40] == 1
      && Stands(leg, payer, 0, input, 3, output, 4, 13)
    else if leg.programId == METEORA_DLMM_PROGRAM then
      && Carries(data, METEORA_SWAP2, amount, floor, 28) && data[24..] == [0, 0, 0, 0]
      && Stands(leg, payer, 10, input, 4, output, 5, 13)
    else if leg.programId == METEORA_DAMM_V2_PROGRAM then
      && Carries(data, METEORA_SWAP2, amount, floor, 25) && data[24] == 0
      && Stands(leg, payer, 8, input, 2, output, 3, 11)
    else
      && leg.programId == ORCA_WHIRLPOOL_PROGRAM && SwapsOnWhirlpool(leg, payer, input, output, amount, floor)
  }

  /** A Whirlpool swap: exact in, either direction, with up to three supplemental tick arrays counted last. */
  predicate SwapsOnWhirlpool(leg: Leg, payer: Pubkey, input: Pubkey, output: Pubkey, amount: u64, floor: u64) {
    var data := leg.data;
    && |data| in {43, 49}
    && Carries(data, CLMM_SWAP, amount, floor, |data|) && data[40] == 1 && data[41] <= 1
    && var extra := if |data| == 43 then 0 else data[48];
       && (if |data| == 43 then data[42] == 0 else data[42..48] == [1, 1, 0, 0, 0, 6] && 1 <= extra <= 3)
       && if data[41] == 1 then Stands(leg, payer, 3, input, 7, output, 9, 15 + extra)
          else Stands(leg, payer, 3, input, 9, output, 7, 15 + extra)
  }

  /** The classifier's windows hold these two amounts. */
  predicate Holds(leg: Leg, amount: u64, floor: u64) {
    var layout := DynamicLegLayout(leg);
    && layout.Some?
    && var offset := layout.value.amountOffset;
       && offset + 16 <= |leg.data|
       && leg.data[offset..offset + 8] == Le64(amount) && leg.data[offset + 8..offset + 16] == Le64(floor)
  }

  predicate ReadAs(leg: Leg, payer: Pubkey, input: Pubkey, output: Pubkey, amount: u64, floor: u64) {
    Swaps(leg, payer, input, output, amount, floor)
    <==> LegMatches(leg, payer, input, output, false) && Holds(leg, amount, floor)
  }

  lemma LaunchLabWhereRead(leg: Leg, payer: Pubkey, input: Pubkey, output: Pubkey, amount: u64, floor: u64)
    requires leg.programId == LAUNCHLAB_PROGRAM
    ensures ReadAs(leg, payer, input, output, amount, floor)
  {
  }

  lemma CpmmWhereRead(leg: Leg, payer: Pubkey, input: Pubkey, output: Pubkey, amount: u64, floor: u64)
    requires leg.programId == RAYDIUM_CPMM_PROGRAM
    ensures ReadAs(leg, payer, input, output, amount, floor)
  {
  }

  lemma PumpSwapWhereRead(leg: Leg, payer: Pubkey, input: Pubkey, output: Pubkey, amount: u64, floor: u64)
    requires leg.programId == PUMPSWAP_PROGRAM
    ensures ReadAs(leg, payer, input, output, amount, floor)
  {
  }

  lemma ClmmWhereRead(leg: Leg, payer: Pubkey, input: Pubkey, output: Pubkey, amount: u64, floor: u64)
    requires leg.programId == RAYDIUM_CLMM_PROGRAM
    ensures ReadAs(leg, payer, input, output, amount, floor)
  {
  }

  lemma DlmmWhereRead(leg: Leg, payer: Pubkey, input: Pubkey, output: Pubkey, amount: u64, floor: u64)
    requires leg.programId == METEORA_DLMM_PROGRAM
    ensures ReadAs(leg, payer, input, output, amount, floor)
  {
  }

  lemma DammWhereRead(leg: Leg, payer: Pubkey, input: Pubkey, output: Pubkey, amount: u64, floor: u64)
    requires leg.programId == METEORA_DAMM_V2_PROGRAM
    ensures ReadAs(leg, payer, input, output, amount, floor)
  {
  }

  lemma WhirlpoolWhereRead(leg: Leg, payer: Pubkey, input: Pubkey, output: Pubkey, amount: u64, floor: u64)
    requires leg.programId == ORCA_WHIRLPOOL_PROGRAM
    ensures ReadAs(leg, payer, input, output, amount, floor)
  {
  }

  lemma SwapsWhereRead(leg: Leg, payer: Pubkey, input: Pubkey, output: Pubkey, amount: u64, floor: u64)
    ensures ReadAs(leg, payer, input, output, amount, floor)
  {
    if leg.programId == LAUNCHLAB_PROGRAM {
      LaunchLabWhereRead(leg, payer, input, output, amount, floor);
    } else if leg.programId == RAYDIUM_CPMM_PROGRAM {
      CpmmWhereRead(leg, payer, input, output, amount, floor);
    } else if leg.programId == PUMPSWAP_PROGRAM {
      PumpSwapWhereRead(leg, payer, input, output, amount, floor);
    } else if leg.programId == RAYDIUM_CLMM_PROGRAM {
      ClmmWhereRead(leg, payer, input, output, amount, floor);
    } else if leg.programId == METEORA_DLMM_PROGRAM {
      DlmmWhereRead(leg, payer, input, output, amount, floor);
    } else if leg.programId == METEORA_DAMM_V2_PROGRAM {
      DammWhereRead(leg, payer, input, output, amount, floor);
    } else if leg.programId == ORCA_WHIRLPOOL_PROGRAM {
      WhirlpoolWhereRead(leg, payer, input, output, amount, floor);
    }
  }

  lemma ClassifiedHolds(leg: Leg) returns (amount: u64, floor: u64)
    requires DynamicLegLayout(leg).Some?
    ensures Holds(leg, amount, floor)
  {
    var offset := DynamicLegLayout(leg).value.amountOffset;
    assert offset + 16 <= |leg.data|;
    Widths();
    amount, floor := LeNat(leg.data[offset..offset + 8]), LeNat(leg.data[offset + 8..offset + 16]);
    LeRoundTripBack(leg.data[offset..offset + 8]);
    LeRoundTripBack(leg.data[offset + 8..offset + 16]);
  }

  lemma ZeroWindow(leg: Leg, payer: Pubkey, input: Pubkey, output: Pubkey, requireZeroAmount: bool, amount: u64,
                   floor: u64)
    requires Holds(leg, amount, floor)
    ensures LegMatches(leg, payer, input, output, requireZeroAmount)
            <==> LegMatches(leg, payer, input, output, false) && (requireZeroAmount ==> amount == 0)
  {
    assert LeNat(Le64(amount)) == amount;
    assert Le64(0) == [0, 0, 0, 0, 0, 0, 0, 0];
  }

  /** The router takes a leg for `payer`, from `input` to `output`, exactly when it is such a swap for some
      amounts, with the input amount zero where a placeholder is asked for. */
  lemma MatchesExactly(leg: Leg, payer: Pubkey, input: Pubkey, output: Pubkey, requireZeroAmount: bool)
    ensures LegMatches(leg, payer, input, output, requireZeroAmount)
            <==> exists amount: u64, floor: u64 ::
                   Swaps(leg, payer, input, output, amount, floor) && (requireZeroAmount ==> amount == 0)
  {
    if LegMatches(leg, payer, input, output, requireZeroAmount) {
      var amount, floor := ClassifiedHolds(leg);
      ZeroWindow(leg, payer, input, output, requireZeroAmount, amount, floor);
      SwapsWhereRead(leg, payer, input, output, amount, floor);
    }
    if amount: u64, floor: u64 :|
      Swaps(leg, payer, input, output, amount, floor) && (requireZeroAmount ==> amount == 0)
    {
      SwapsWhereRead(leg, payer, input, output, amount, floor);
      ZeroWindow(leg, payer, input, output, requireZeroAmount, amount, floor);
    }
  }
}
