/** Cached pool snapshots overlaid with swap events (crates/sdk/src/parser.rs:440-508). */
module SnapshotMerge {
  import opened Wrappers
  import opened Arith
  import opened Keys

  /** The later of two values, where the default key means that nothing was said. */
  function Overlay(cached: Pubkey, said: Pubkey): Pubkey {
    if said == DEFAULT_KEY then cached else said
  }

  // ----- Whirlpool -----

  /** The addresses a Whirlpool swap event carries. */
  datatype WhirlpoolTopology = WhirlpoolTopology(
    vaultA: Pubkey, vaultB: Pubkey, mintA: Pubkey, mintB: Pubkey, programA: Pubkey, programB: Pubkey)

  datatype WhirlpoolEvent = WhirlpoolEvent(
    whirlpool: Pubkey,
    topology: WhirlpoolTopology,
    tickArray0: Pubkey,
    tickArray1: Pubkey,
    tickArray2: Pubkey,
    inputAmount: u64)
  {
    function Ticks(): seq<Pubkey> {
      [tickArray0, tickArray1, tickArray2]
    }

    predicate Complete() {
      tickArray0 != DEFAULT_KEY && tickArray1 != DEFAULT_KEY && tickArray2 != DEFAULT_KEY
    }
  }

  datatype WhirlpoolState = WhirlpoolState(
    whirlpool: Pubkey,
    topology: WhirlpoolTopology,
    tickArrays: seq<Pubkey>,
    quotedAmountIn: Option<u64>,
    quotedInputMint: Option<Pubkey>,
    expectedOut: Option<u64>)

  predicate Concerns(e: WhirlpoolEvent, whirlpool: Pubkey) {
    e.whirlpool != DEFAULT_KEY && e.whirlpool == whirlpool
  }

  function MergeTopology(t: WhirlpoolTopology, said: WhirlpoolTopology): WhirlpoolTopology {
    WhirlpoolTopology(Overlay(t.vaultA, said.vaultA), Overlay(t.vaultB, said.vaultB),
                      Overlay(t.mintA, said.mintA), Overlay(t.mintB, said.mintB),
                      Overlay(t.programA, said.programA), Overlay(t.programB, said.programB))
  }

  function Merged(s: WhirlpoolState, e: WhirlpoolEvent): WhirlpoolState {
    if e.whirlpool == DEFAULT_KEY || e.whirlpool != s.whirlpool then s
    else
      WhirlpoolState(s.whirlpool, MergeTopology(s.topology, e.topology),
                     if e.tickArray0 != DEFAULT_KEY && e.tickArray1 != DEFAULT_KEY && e.tickArray2 != DEFAULT_KEY then
                       [e.tickArray0, e.tickArray1, e.tickArray2]
                     else s.tickArrays,
                     if e.inputAmount > 0 then Some(e.inputAmount) else s.quotedAmountIn, None, None)
  }

  /** The source's mutable pool snapshot. */
  class WhirlpoolPool {
    const whirlpool: Pubkey
    var vaultA: Pubkey
    var vaultB: Pubkey
    var mintA: Pubkey
    var mintB: Pubkey
    var tokenProgramA: Pubkey
    var tokenProgramB: Pubkey
    var tickArrays: seq<Pubkey>
    var quotedAmountIn: Option<u64>
    var quotedInputMint: Option<Pubkey>
    var expectedOut: Option<u64>

    constructor (s: WhirlpoolState)
      ensures State() == s
    {
      whirlpool, tickArrays := s.whirlpool, s.tickArrays;
      vaultA, vaultB := s.topology.vaultA, s.topology.vaultB;
      mintA, mintB := s.topology.mintA, s.topology.mintB;
      tokenProgramA, tokenProgramB := s.topology.programA, s.topology.programB;
      quotedAmountIn, quotedInputMint, expectedOut := s.quotedAmountIn, s.quotedInputMint, s.expectedOut;
    }

    function State(): WhirlpoolState
      reads this
    {
      WhirlpoolState(whirlpool, WhirlpoolTopology(vaultA, vaultB, mintA, mintB, tokenProgramA, tokenProgramB),
                     tickArrays, quotedAmountIn, quotedInputMint, expectedOut)
    }

    /** The vaults, mints and programs of a swap, each kept where the event leaves it out. */
    method MergeAddresses(t: WhirlpoolTopology)
      modifies this
      ensures State() == old(State()).(topology := MergeTopology(old(State()).topology, t))
    {
      if t.vaultA != DEFAULT_KEY {
        vaultA := t.vaultA;
      }
      if t.vaultB != DEFAULT_KEY {
        vaultB := t.vaultB;
      }
      if t.mintA != DEFAULT_KEY {
        mintA := t.mintA;
      }
      if t.mintB != DEFAULT_KEY {
        mintB := t.mintB;
      }
      if t.programA != DEFAULT_KEY {
        tokenProgramA := t.programA;
      }
      if t.programB != DEFAULT_KEY {
        tokenProgramB := t.programB;
      }
    }

    /** The source's `merge_whirlpool_swap`. */
    method MergeSwap(e: WhirlpoolEvent)
      modifies this
      ensures State() == Merged(old(State()), e)
    {
      if e.whirlpool == DEFAULT_KEY || e.whirlpool != whirlpool {
        return;
      }
      var ticks := [e.tickArray0, e.tickArray1, e.tickArray2];
      assert ticks[0] in ticks && ticks[1] in ticks && ticks[2] in ticks;
      if forall key :: key in ticks ==> key != DEFAULT_KEY {
        tickArrays := ticks;
      }
      MergeAddresses(e.topology);
      expectedOut := None;
      quotedInputMint := None;
      if e.inputAmount > 0 {
        quotedAmountIn := Some(e.inputAmount);
        expectedOut := None;
        quotedInputMint := None;
      }
    }
  }

  function RunWhirlpool(s: WhirlpoolState, events: seq<WhirlpoolEvent>): WhirlpoolState
    decreases |events|
  {
    if events == [] then s else RunWhirlpool(Merged(s, events[0]), events[1..])
  }

  /** What a snapshot holds besides its quote. */
  datatype WhirlpoolPart = VaultA | VaultB | MintA | MintB | ProgramA | ProgramB | TickArrays | QuotedAmount

  function TopologyPart(t: WhirlpoolTopology, part: WhirlpoolPart): Pubkey
    requires !part.TickArrays? && !part.QuotedAmount?
  {
    match part
    case VaultA => t.vaultA
    case VaultB => t.vaultB
    case MintA => t.mintA
    case MintB => t.mintB
    case ProgramA => t.programA
    case ProgramB => t.programB
  }

  /** A part as a list of numbers: one address, the tick arrays, or the amount if known. */
  function PartOf(s: WhirlpoolState, part: WhirlpoolPart): seq<int> {
    match part
    case TickArrays => s.tickArrays
    case QuotedAmount => if s.quotedAmountIn.Some? then [s.quotedAmountIn.value] else []
    case _ => [TopologyPart(s.topology, part)]
  }

  /** What an event says about a part; nothing, when the source treats it as missing. */
  function SaidOf(e: WhirlpoolEvent, part: WhirlpoolPart): Option<seq<int>> {
    match part
    case TickArrays => if e.Complete() then Some(e.Ticks()) else None
    case QuotedAmount => if e.inputAmount > 0 then Some([e.inputAmount]) else None
    case _ =>
      if TopologyPart(e.topology, part) == DEFAULT_KEY then None else Some([TopologyPart(e.topology, part)])
  }

  predicate Speaks(e: WhirlpoolEvent, whirlpool: Pubkey, part: WhirlpoolPart) {
    Concerns(e, whirlpool) && SaidOf(e, part).Some?
  }

  /** One merge sets the part to what the event says of it, or keeps it. */
  lemma MergeSetsPart(s: WhirlpoolState, e: WhirlpoolEvent, part: WhirlpoolPart)
    ensures PartOf(Merged(s, e), part)
            == if Speaks(e, s.whirlpool, part) then SaidOf(e, part).value else PartOf(s, part)
  {
  }

  /** After any run, each part is what the last same-pool event to speak of it said; a part nobody
      spoke of is the initial one. */
  lemma {:induction false} LastWordWins(s: WhirlpoolState, events: seq<WhirlpoolEvent>, part: WhirlpoolPart, last: int)
    requires -1 <= last < |events|
    requires 0 <= last ==> Speaks(events[last], s.whirlpool, part)
    requires forall j :: last < j < |events| ==> !Speaks(events[j], s.whirlpool, part)
    ensures PartOf(RunWhirlpool(s, events), part)
            == if last < 0 then PartOf(s, part) else SaidOf(events[last], part).value
    decreases |events|
  {
    if events != [] {
      MergeSetsPart(s, events[0], part);
      LastWordWins(Merged(s, events[0]), events[1..], part, if 0 <= last then last - 1 else -1);
    }
  }

  /** Any same-pool event leaves the snapshot without a cached quote; without one, nothing changes. */
  lemma {:induction false} QuoteIsInvalidated(s: WhirlpoolState, events: seq<WhirlpoolEvent>)
    ensures var end := RunWhirlpool(s, events);
            if exists i :: 0 <= i < |events| && Concerns(events[i], s.whirlpool)
            then end.expectedOut == None && end.quotedInputMint == None
            else end == s
    decreases |events|
  {
    if events != [] {
      var next, rest := Merged(s, events[0]), events[1..];
      QuoteIsInvalidated(next, rest);
      assert forall i :: 0 <= i < |rest| ==> rest[i] == events[i + 1];
      if i :| 0 < i < |events| && Concerns(events[i], s.whirlpool) {
        assert Concerns(rest[i - 1], s.whirlpool);
      }
    }
  }

  // ----- Raydium CLMM -----

  datatype ClmmEvent = ClmmEvent(
    poolState: Pubkey,
    ammConfig: Pubkey,
    observationState: Pubkey,
    tickArrays: seq<Pubkey>,
    bitmapExtension: Option<Pubkey>,
    zeroForOne: bool,
    amount0: u64,
    amount1: u64)
  {
    function AmountIn(): u64 {
      if zeroForOne then amount0 else amount1
    }
  }

  datatype ClmmState = ClmmState(
    poolState: Pubkey,
    ammConfig: Pubkey,
    observationState: Pubkey,
    tickArrays: seq<Pubkey>,
    bitmapExtension: Option<Pubkey>,
    quotedAmountIn: Option<u64>,
    quotedInputMint: Option<Pubkey>,
    expectedOut: Option<u64>)

  predicate ConcernsClmm(e: ClmmEvent, poolState: Pubkey) {
    e.poolState != DEFAULT_KEY && e.poolState == poolState
  }

  function MergedClmm(s: ClmmState, e: ClmmEvent): ClmmState {
    if e.poolState == DEFAULT_KEY || e.poolState != s.poolState then s
    else
      ClmmState(s.poolState, Overlay(s.ammConfig, e.ammConfig), Overlay(s.observationState, e.observationState),
                if e.tickArrays == [] then s.tickArrays else e.tickArrays,
                if e.bitmapExtension.Some? then e.bitmapExtension else s.bitmapExtension,
                if e.zeroForOne && e.amount0 > 0 then Some(e.amount0)
                else if !e.zeroForOne && e.amount1 > 0 then Some(e.amount1)
                else s.quotedAmountIn, None, None)
  }

  /** The source's mutable CLMM snapshot. */
  class ClmmPool {
    const poolState: Pubkey
    var ammConfig: Pubkey
    var observationState: Pubkey
    var tickArrays: seq<Pubkey>
    var bitmapExtension: Option<Pubkey>
    var quotedAmountIn: Option<u64>
    var quotedInputMint: Option<Pubkey>
    var expectedOut: Option<u64>

    constructor (s: ClmmState)
      ensures State() == s
    {
      poolState, ammConfig, observationState := s.poolState, s.ammConfig, s.observationState;
      tickArrays, bitmapExtension := s.tickArrays, s.bitmapExtension;
      quotedAmountIn, quotedInputMint, expectedOut := s.quotedAmountIn, s.quotedInputMint, s.expectedOut;
    }

    function State(): ClmmState
      reads this
    {
      ClmmState(poolState, ammConfig, observationState, tickArrays, bitmapExtension, quotedAmountIn,
                quotedInputMint, expectedOut)
    }

    /** The source's `merge_clmm_swap`. */
    method MergeSwap(e: ClmmEvent)
      modifies this
      ensures State() == MergedClmm(old(State()), e)
    {
      if e.poolState == DEFAULT_KEY || e.poolState != poolState {
        return;
      }
      if e.tickArrays != [] {
        tickArrays := e.tickArrays;
      }
      if e.bitmapExtension.Some? {
        bitmapExtension := e.bitmapExtension;
      }
      if e.ammConfig != DEFAULT_KEY {
        ammConfig := e.ammConfig;
      }
      if e.observationState != DEFAULT_KEY {
        observationState := e.observationState;
      }
      var amountIn := if e.zeroForOne then e.amount0 else e.amount1;
      expectedOut := None;
      quotedInputMint := None;
      if amountIn > 0 {
        quotedAmountIn := Some(amountIn);
        expectedOut := None;
        quotedInputMint := None;
      }
    }
  }

  function RunClmm(s: ClmmState, events: seq<ClmmEvent>): ClmmState
    decreases |events|
  {
    if events == [] then s else RunClmm(MergedClmm(s, events[0]), events[1..])
  }

  datatype ClmmPart = AmmConfig | ObservationState | ClmmTickArrays | BitmapExtension | ClmmQuotedAmount

  function ClmmPartOf(s: ClmmState, part: ClmmPart): seq<int> {
    match part
    case AmmConfig => [s.ammConfig]
    case ObservationState => [s.observationState]
    case ClmmTickArrays => s.tickArrays
    case BitmapExtension => if s.bitmapExtension.Some? then [s.bitmapExtension.value] else []
    case ClmmQuotedAmount => if s.quotedAmountIn.Some? then [s.quotedAmountIn.value] else []
  }

  function ClmmSaidOf(e: ClmmEvent, part: ClmmPart): Option<seq<int>> {
    match part
    case AmmConfig => if e.ammConfig == DEFAULT_KEY then None else Some([e.ammConfig])
    case ObservationState => if e.observationState == DEFAULT_KEY then None else Some([e.observationState])
    case ClmmTickArrays => if e.tickArrays == [] then None else Some(e.tickArrays)
    case BitmapExtension => if e.bitmapExtension.None? then None else Some([e.bitmapExtension.value])
    case ClmmQuotedAmount => if e.AmountIn() == 0 then None else Some([e.AmountIn()])
  }

  predicate ClmmSpeaks(e: ClmmEvent, poolState: Pubkey, part: ClmmPart) {
    ConcernsClmm(e, poolState) && ClmmSaidOf(e, part).Some?
  }

  lemma {:induction false} ClmmLastWordWins(s: ClmmState, events: seq<ClmmEvent>, part: ClmmPart, last: int)
    requires -1 <= last < |events|
    requires 0 <= last ==> ClmmSpeaks(events[last], s.poolState, part)
    requires forall j :: last < j < |events| ==> !ClmmSpeaks(events[j], s.poolState, part)
    ensures ClmmPartOf(RunClmm(s, events), part)
            == if last < 0 then ClmmPartOf(s, part) else ClmmSaidOf(events[last], part).value
    decreases |events|
  {
    if events != [] {
      ClmmLastWordWins(MergedClmm(s, events[0]), events[1..], part, if 0 <= last then last - 1 else -1);
    }
  }

  lemma {:induction false} ClmmQuoteIsInvalidated(s: ClmmState, events: seq<ClmmEvent>)
    ensures var end := RunClmm(s, events);
            if exists i :: 0 <= i < |events| && ConcernsClmm(events[i], s.poolState)
            then end.expectedOut == None && end.quotedInputMint == None
            else end == s
    decreases |events|
  {
    if events != [] {
      var next, rest := MergedClmm(s, events[0]), events[1..];
      ClmmQuoteIsInvalidated(next, rest);
      assert forall i :: 0 <= i < |rest| ==> rest[i] == events[i + 1];
      if i :| 0 < i < |events| && ConcernsClmm(events[i], s.poolState) {
        assert ConcernsClmm(rest[i - 1], s.poolState);
      }
    }
  }
}
