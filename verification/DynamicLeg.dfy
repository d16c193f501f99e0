/** The classifier of legs whose input amount the router may overwrite
    (crates/sdk/src/route_ix.rs:35-146). */
module DynamicLeg {
  import opened Wrappers
  import opened Arith
  import opened Bytes
  import opened Keys

  const BUY_EXACT_IN_LAUNCHLAB: seq<u8> := [250, 234, 13, 123, 213, 156, 19, 236]
  const CPMM_SWAP_BASE_IN: seq<u8> := [143, 190, 90, 218, 196, 30, 51, 222]
  const PUMPSWAP_BUY_EXACT_QUOTE_IN: seq<u8> := [198, 46, 21, 82, 180, 217, 232, 112]
  const PUMPSWAP_SELL: seq<u8> := [51, 230, 133, 164, 1, 127, 131, 173]
  const RAYDIUM_AMM_V4_SWAP_BASE_IN_V2: u8 := 16
  const METEORA_DAMM_V2_SWAP2: seq<u8> := [65, 75, 63, 76, 235, 91, 91, 136]
  const METEORA_DAMM_V2_EXACT_IN: u8 := 0
  const METEORA_DAMM_V2_EXACT_OUT: u8 := 2
  const CLMM_SWAP_V2: seq<u8> := [43, 4, 237, 11, 26, 201, 30, 98]
  const WHIRLPOOL_SWAP_V2: seq<u8> := CLMM_SWAP_V2
  const METEORA_DLMM_SWAP2: seq<u8> := [65, 75, 63, 76, 235, 91, 91, 136]

  datatype Layout = Layout(
    inputAccount: nat,
    outputAccount: nat,
    signer: nat,
    amountOffset: nat,
    minimumAccounts: nat)

  /** The accounts a Whirlpool swap needs: 15, or up to 3 more for supplemental tick arrays. */
  function WhirlpoolDynamicAccounts(data: seq<u8>): Option<nat> {
    if |data| == 43 && data[42] == 0 then Some(15)
    else if |data| == 49 && data[42..48] == [1, 1, 0, 0, 0, 6] && 1 <= data[48] <= 3 then Some(15 + data[48])
    else None
  }

  function DynamicLegLayout(leg: Leg): Option<Layout> {
    var data := leg.data;
    if leg.programId == LAUNCHLAB_PROGRAM && |data| == 32
       && data[..8] == BUY_EXACT_IN_LAUNCHLAB && data[24..32] == [0, 0, 0, 0, 0, 0, 0, 0] then
      Some(Layout(6, 5, 0, 8, 13))
    else if leg.programId == RAYDIUM_CPMM_PROGRAM && |data| == 24 && data[..8] == CPMM_SWAP_BASE_IN then
      Some(Layout(4, 5, 0, 8, 12))
    else if leg.programId == PUMPSWAP_PROGRAM && |data| == 25
            && data[..8] == PUMPSWAP_BUY_EXACT_QUOTE_IN && data[24] <= 1 then
      Some(Layout(6, 5, 1, 8, 13))
    else if leg.programId == PUMPSWAP_PROGRAM && |data| == 24 && data[..8] == PUMPSWAP_SELL then
      Some(Layout(5, 6, 1, 8, 13))
    else if leg.programId == RAYDIUM_AMM_V4_PROGRAM && |data| == 17
            && data[0] == RAYDIUM_AMM_V4_SWAP_BASE_IN_V2 then
      Some(Layout(5, 6, 7, 1, 8))
    else if leg.programId == RAYDIUM_CLMM_PROGRAM && |data| == 41
            && data[..8] == CLMM_SWAP_V2 && data[40] == 1 then
      Some(Layout(3, 4, 0, 8, 13))
    else if leg.programId == METEORA_DLMM_PROGRAM && |data| == 28
            && data[..8] == METEORA_DLMM_SWAP2 && data[24..28] == [0, 0, 0, 0] then
      Some(Layout(4, 5, 10, 8, 13))
    else if leg.programId == METEORA_DAMM_V2_PROGRAM && |data| == 25
            && data[..8] == METEORA_DAMM_V2_SWAP2 && data[24] == METEORA_DAMM_V2_EXACT_IN then
      Some(Layout(2, 3, 8, 8, 11))
    else if leg.programId == ORCA_WHIRLPOOL_PROGRAM && WhirlpoolDynamicAccounts(data).Some?
            && data[..8] == WHIRLPOOL_SWAP_V2 && data[40] == 1 && data[41] <= 1 then
      var accounts := WhirlpoolDynamicAccounts(data).value;
      if data[41] == 1 then Some(Layout(7, 9, 3, 8, accounts)) else Some(Layout(9, 7, 3, 8, accounts))
    else None
  }

  /** The window the router overwrites, and the slots it reads, are always in bounds. */
  lemma LayoutInBounds(leg: Leg)
    requires DynamicLegLayout(leg).Some?
    ensures var l := DynamicLegLayout(leg).value;
            && l.amountOffset + 8 <= |leg.data|
            && l.inputAccount < l.minimumAccounts
            && l.outputAccount < l.minimumAccounts
            && l.signer < l.minimumAccounts
            && l.inputAccount != l.outputAccount
            && l.signer != l.inputAccount && l.signer != l.outputAccount
  {
  }

  function Overwrite(data: seq<u8>, offset: nat, bytes: seq<u8>): (s: seq<u8>)
    requires offset + |bytes| <= |data|
    ensures |s| == |data|
  {
    data[..offset] + bytes + data[offset + |bytes|..]
  }

  /** Overwriting the amount window leaves the leg's classification unchanged, for any amount. */
  lemma OverwriteKeepsLayout(leg: Leg, amount: u64)
    requires DynamicLegLayout(leg).Some?
    ensures var offset := DynamicLegLayout(leg).value.amountOffset;
            && offset + 8 <= |leg.data|
            && var data := Overwrite(leg.data, offset, Le64(amount));
               && DynamicLegLayout(leg.(data := data)) == DynamicLegLayout(leg)
               && data[offset..offset + 8] == Le64(amount)
  {
    LayoutInBounds(leg);
    var offset := DynamicLegLayout(leg).value.amountOffset;
    var data := Overwrite(leg.data, offset, Le64(amount));
    assert forall i :: 0 <= i < offset ==> data[i] == leg.data[i];
    assert forall i :: offset + 8 <= i < |data| ==> data[i] == leg.data[i];
    if offset == 8 {
      assert data[..8] == leg.data[..8];
      if |data| == 32 { assert data[24..32] == leg.data[24..32]; }
      if |data| == 28 { assert data[24..28] == leg.data[24..28]; }
      if |data| == 49 { assert data[42..48] == leg.data[42..48]; }
    }
  }

  /** The slot and amount checks of `validate_dynamic_leg`. */
  predicate LegMatches(leg: Leg, payer: Pubkey, input: Pubkey, output: Pubkey, requireZeroAmount: bool) {
    var layout := DynamicLegLayout(leg);
    && layout.Some?
    && var l := layout.value;
       LayoutInBounds(leg);
       && l.minimumAccounts <= |leg.accounts|
       && leg.accounts[l.signer].pubkey == payer
       && leg.accounts[l.signer].isSigner
       && leg.accounts[l.inputAccount] == leg.accounts[l.inputAccount].(pubkey := input, isWritable := true)
       && leg.accounts[l.outputAccount] == leg.accounts[l.outputAccount].(pubkey := output, isWritable := true)
       && (requireZeroAmount ==> leg.data[l.amountOffset..l.amountOffset + 8] == [0, 0, 0, 0, 0, 0, 0, 0])
  }

  /** A leg that matches its route still does once the router has written an amount into it. */
  lemma OverwriteKeepsMatch(leg: Leg, payer: Pubkey, input: Pubkey, output: Pubkey, requireZeroAmount: bool,
                            amount: u64)
    requires LegMatches(leg, payer, input, output, requireZeroAmount)
    ensures var offset := DynamicLegLayout(leg).value.amountOffset;
            && offset + 8 <= |leg.data|
            && var written := leg.(data := Overwrite(leg.data, offset, Le64(amount)));
               && LegMatches(written, payer, input, output, false)
               && written.data[offset..offset + 8] == Le64(amount)
  {
    OverwriteKeepsLayout(leg, amount);
  }
}
