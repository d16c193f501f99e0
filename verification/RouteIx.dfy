/** The three route builders (crates/sdk/src/route_ix.rs:148-485). */
module RouteIx {
  import opened Wrappers
  import opened Arith
  import opened Bytes
  import opened Keys
  import opened RouteCodec
  import opened DynamicLeg
  import opened DynamicForms

  const FEE_ASSET_TOKEN: u8 := 1
  const FEE_ASSET_EXACT_OUT: u8 := 0x80

  datatype RouteAccounts = RouteAccounts(
    payer: Pubkey,
    feeDestination: Pubkey,
    feeSource: Pubkey,
    outputTokenAccount: Pubkey,
    feeProgram: Pubkey,
    feeMint: Pubkey)

  datatype Instruction = Instruction(programId: Pubkey, accounts: seq<AccountMeta>, data: seq<u8>)

  datatype RouteError =
    | WrongLegCount
    | ZeroAmount
    | SystemOutput
    | AliasedIntermediate
    | FirstLegMissesIntermediate
    | InvalidLegSize
    | InvalidDynamicLeg

  // ----- what the builders produce -----

  function FixedMetas(accounts: RouteAccounts, config: Pubkey): seq<AccountMeta> {
    [AccountMeta(accounts.payer, true, true), Readonly(config), Writable(accounts.feeDestination),
     Writable(accounts.feeSource), Writable(accounts.outputTokenAccount), Readonly(accounts.feeProgram)]
  }

  /** The programs that a buffer of `capacity` remembers: the first so many distinct ones. */
  function Recorded(legs: seq<Leg>, capacity: nat): seq<Pubkey> {
    if legs == [] then []
    else
      var seen, program := Recorded(legs[..|legs| - 1], capacity), legs[|legs| - 1].programId;
      if program !in seen && |seen| < capacity then seen + [program] else seen
  }

  /** The programs listed after the legs' accounts: each leg's, unless the buffer remembers it. */
  function ProgramTail(legs: seq<Leg>, capacity: nat): seq<AccountMeta> {
    if legs == [] then []
    else
      var before, program := legs[..|legs| - 1], legs[|legs| - 1].programId;
      ProgramTail(before, capacity) + if program in Recorded(before, capacity) then [] else [Readonly(program)]
  }

  lemma TailOfOneMore(legs: seq<Leg>, leg: Leg, capacity: nat)
    ensures var seen, program := Recorded(legs, capacity), leg.programId;
            && Recorded(legs + [leg], capacity)
               == (if program !in seen && |seen| < capacity then seen + [program] else seen)
            && ProgramTail(legs + [leg], capacity)
               == ProgramTail(legs, capacity) + if program in seen then [] else [Readonly(program)]
  {
    assert (legs + [leg])[..|legs|] == legs;
  }

  /** The fee mint's meta, appended last for a Token-2022 fee whose mint no meta names yet. */
  function FeeMintTail(metas: seq<AccountMeta>, accounts: RouteAccounts): seq<AccountMeta> {
    if accounts.feeProgram == TOKEN_2022_PROGRAM
       && !exists i :: 0 <= i < |metas| && metas[i].pubkey == accounts.feeMint
    then [Readonly(accounts.feeMint)] else []
  }

  function Metas(accounts: RouteAccounts, config: Pubkey, intermediates: seq<Pubkey>, legs: seq<Leg>,
                 capacity: nat): seq<AccountMeta> {
    var metas := FixedMetas(accounts, config) + WritableAll(intermediates) + AllAccounts(legs)
                 + ProgramTail(legs, capacity);
    metas + FeeMintTail(metas, accounts)
  }

  function FixedInputRoute(amountIn: u64, minAmountOut: u64, feeAsset: u8, exactOut: bool, mint: Pubkey,
                           legs: seq<Leg>): Route {
    Route(TAG_ROUTE, amountIn, minAmountOut, feeAsset % 2 + if exactOut then FEE_ASSET_EXACT_OUT else 0,
          mint, [], legs)
  }

  // ----- the builders' loops -----

  method AppendLegs(data: seq<u8>, metas: seq<AccountMeta>, legs: seq<Leg>)
    returns (data': seq<u8>, metas': seq<AccountMeta>)
    ensures data' == data + EncodeLegs(legs)
    ensures metas' == metas + AllAccounts(legs)
  {
    data', metas' := data, metas;
    for i := 0 to |legs|
      invariant data' + EncodeLegs(legs[i..]) == data + EncodeLegs(legs)
      invariant metas' + AllAccounts(legs[i..]) == metas + AllAccounts(legs)
    {
      var leg := legs[i];
      assert legs[i..][1..] == legs[i + 1..];
      data' := data' + (LeBytes(32, leg.programId) + Byte(|leg.accounts| % 0x100) + Le16(|leg.data| % 0x1_0000)
                        + leg.data);
      metas' := metas' + leg.accounts;
    }
  }

  lemma TailStep(legs: seq<Leg>, i: nat, capacity: nat, seen: seq<Pubkey>, tail: seq<AccountMeta>)
    requires i < |legs| && seen == Recorded(legs[..i], capacity) && tail == ProgramTail(legs[..i], capacity)
    ensures var program := legs[i].programId;
            && Recorded(legs[..i + 1], capacity)
               == (if program !in seen && |seen| < capacity then seen + [program] else seen)
            && ProgramTail(legs[..i + 1], capacity) == if program in seen then tail else tail + [Readonly(program)]
  {
    TailOfOneMore(legs[..i], legs[i], capacity);
    assert legs[..i + 1] == legs[..i] + [legs[i]];
  }

  /** Appends each leg's program once, as far as the fixed-size `seen` buffer can tell. */
  method AppendPrograms(metas: seq<AccountMeta>, legs: seq<Leg>, capacity: nat)
    returns (metas': seq<AccountMeta>)
    ensures metas' == metas + ProgramTail(legs, capacity)
  {
    metas' := metas;
    var seen := new Pubkey[capacity](_ => DEFAULT_KEY);
    var seenN := 0;
    for i := 0 to |legs|
      invariant seenN <= capacity && seen[..seenN] == Recorded(legs[..i], capacity)
      invariant metas' == metas + ProgramTail(legs[..i], capacity)
    {
      var program := legs[i].programId;
      ghost var before, tail := seen[..seenN], ProgramTail(legs[..i], capacity);
      TailStep(legs, i, capacity, before, tail);
      if program !in seen[..seenN] {
        metas' := metas' + [Readonly(program)];
        assert metas' == metas + (tail + [Readonly(program)]);
        if seenN < capacity {
          seen[seenN] := program;
          seenN := seenN + 1;
          assert seen[..seenN] == before + [program];
        }
      }
    }
    assert legs[..|legs|] == legs;
  }

  method AppendFeeMint(metas: seq<AccountMeta>, accounts: RouteAccounts) returns (metas': seq<AccountMeta>)
    ensures metas' == metas + FeeMintTail(metas, accounts)
  {
    metas' := metas;
    if accounts.feeProgram == TOKEN_2022_PROGRAM
       && !exists i :: 0 <= i < |metas| && metas[i].pubkey == accounts.feeMint {
      metas' := metas' + [Readonly(accounts.feeMint)];
    }
  }

  /** The common end of the three builders: legs, their programs, the fee mint. */
  method AppendAll(data: seq<u8>, metas: seq<AccountMeta>, accounts: RouteAccounts, legs: seq<Leg>, capacity: nat)
    returns (data': seq<u8>, metas': seq<AccountMeta>)
    ensures data' == data + EncodeLegs(legs)
    ensures var all := metas + AllAccounts(legs) + ProgramTail(legs, capacity);
            metas' == all + FeeMintTail(all, accounts)
  {
    data', metas' := AppendLegs(data, metas, legs);
    metas' := AppendPrograms(metas', legs, capacity);
    metas' := AppendFeeMint(metas', accounts);
  }

  // ----- the builders -----

  function RouteInstruction(programId: Pubkey, config: Pubkey, accounts: RouteAccounts, amountIn: u64,
                            minAmountOut: u64, feeAsset: u8, exactOut: bool, mint: Pubkey, legs: seq<Leg>): Instruction
  {
    Instruction(programId, Metas(accounts, config, [], legs, 4),
                Encode(FixedInputRoute(amountIn, minAmountOut, feeAsset, exactOut, mint, legs)))
  }

  method BuildRouteInstructionEx(programId: Pubkey, config: Pubkey, accounts: RouteAccounts, amountIn: u64,
                                 minAmountOut: u64, feeAsset: u8, exactOut: bool, mint: Pubkey, legs: seq<Leg>)
    returns (ix: Instruction)
    ensures ix == RouteInstruction(programId, config, accounts, amountIn, minAmountOut, feeAsset, exactOut, mint, legs)
  {
    var feeAssetByte := if exactOut then feeAsset % 2 + FEE_ASSET_EXACT_OUT else feeAsset % 2;
    var data := Byte(TAG_ROUTE);
    data := data + Le64(amountIn);
    data := data + Le64(minAmountOut);
    data := data + Byte(feeAssetByte);
    data := data + Byte(|legs| % 0x100);
    data := data + LeBytes(32, mint);
    var metas := FixedMetas(accounts, config);
    assert data == EncodeHead(FixedInputRoute(amountIn, minAmountOut, feeAsset, exactOut, mint, legs))
                   + EncodeFloors([]);
    assert metas == FixedMetas(accounts, config) + WritableAll([]);
    data, metas := AppendAll(data, metas, accounts, legs, 4);
    return Instruction(programId, metas, data);
  }

  predicate WritesTo(leg: Leg, key: Pubkey) {
    exists i :: 0 <= i < |leg.accounts| && leg.accounts[i].pubkey == key && leg.accounts[i].isWritable
  }

  function DynamicRoute(amountIn: u64, floors: seq<u64>, minAmountOut: u64, mint: Pubkey, legs: seq<Leg>): Route {
    Route(if |floors| == 1 then TAG_ROUTE_DYNAMIC else TAG_ROUTE_DYNAMIC_THREE,
          amountIn, minAmountOut, FEE_ASSET_TOKEN, mint, floors, legs)
  }

  function CheckDynamic(accounts: RouteAccounts, intermediate: Pubkey, amountIn: u64, intermediateMinOut: u64,
                        minAmountOut: u64, mint: Pubkey, first: Leg, second: Leg): Option<RouteError> {
    if amountIn == 0 || intermediateMinOut == 0 || minAmountOut == 0 then Some(ZeroAmount)
    else if mint == SYSTEM_PROGRAM then Some(SystemOutput)
    else if intermediate == accounts.feeSource || intermediate == accounts.outputTokenAccount then
      Some(AliasedIntermediate)
    else if !WritesTo(first, intermediate) then Some(FirstLegMissesIntermediate)
    else if |first.accounts| == 0 || |first.accounts| > MAX_LEG_ACCOUNTS || |second.accounts| > MAX_LEG_ACCOUNTS then
      Some(InvalidLegSize)
    else if !LegMatches(second, accounts.payer, intermediate, accounts.outputTokenAccount, false) then
      Some(InvalidDynamicLeg)
    else if |first.data| >= 0x1_0000 || |second.data| >= 0x1_0000 then Some(InvalidLegSize)
    else None
  }

  function DynamicInstruction(programId: Pubkey, config: Pubkey, accounts: RouteAccounts, intermediate: Pubkey,
                              amountIn: u64, intermediateMinOut: u64, minAmountOut: u64, mint: Pubkey,
                              first: Leg, second: Leg): Result<Instruction, RouteError> {
    match CheckDynamic(accounts, intermediate, amountIn, intermediateMinOut, minAmountOut, mint, first, second)
    case Some(error) => Failure(error)
    case None =>
      Success(Instruction(programId, Metas(accounts, config, [intermediate], [first, second], 4),
                          Encode(DynamicRoute(amountIn, [intermediateMinOut], minAmountOut, mint, [first, second]))))
  }

  method BuildDynamicRouteInstruction(programId: Pubkey, config: Pubkey, accounts: RouteAccounts,
                                      intermediate: Pubkey, amountIn: u64, intermediateMinOut: u64,
                                      minAmountOut: u64, mint: Pubkey, first: Leg, second: Leg)
    returns (r: Result<Instruction, RouteError>)
    ensures r == DynamicInstruction(programId, config, accounts, intermediate, amountIn, intermediateMinOut,
                                    minAmountOut, mint, first, second)
  {
    var error := CheckDynamic(accounts, intermediate, amountIn, intermediateMinOut, minAmountOut, mint, first, second);
    if error.Some? {
      return Failure(error.value);
    }
    var data := Byte(TAG_ROUTE_DYNAMIC);
    data := data + Le64(amountIn);
    data := data + Le64(minAmountOut);
    data := data + Byte(FEE_ASSET_TOKEN);
    data := data + Byte(2);
    data := data + LeBytes(32, mint);
    data := data + Le64(intermediateMinOut);
    var metas := FixedMetas(accounts, config) + [Writable(intermediate)];
    var legs := [first, second];
    ghost var route := DynamicRoute(amountIn, [intermediateMinOut], minAmountOut, mint, legs);
    assert EncodeFloors(route.floors) == Le64(intermediateMinOut);
    assert data == EncodeHead(route) + EncodeFloors(route.floors);
    assert metas == FixedMetas(accounts, config) + WritableAll([intermediate]);
    data, metas := AppendAll(data, metas, accounts, legs, 4);
    return Success(Instruction(programId, metas, data));
  }

  predicate LegSizeValid(leg: Leg) {
    0 < |leg.accounts| <= MAX_LEG_ACCOUNTS && 0 < |leg.data| < 0x1_0000
  }

  function CheckThreeHop(accounts: RouteAccounts, first: Pubkey, second: Pubkey, amountIn: u64, firstMinOut: u64,
                         secondMinOut: u64, minAmountOut: u64, mint: Pubkey, legs: seq<Leg>): Option<RouteError>
    requires |legs| == 3
  {
    if amountIn == 0 || firstMinOut == 0 || secondMinOut == 0 || minAmountOut == 0 then Some(ZeroAmount)
    else if mint == SYSTEM_PROGRAM then Some(SystemOutput)
    else if first == second || first == accounts.feeSource || first == accounts.outputTokenAccount
            || second == accounts.feeSource || second == accounts.outputTokenAccount then Some(AliasedIntermediate)
    else if exists i :: 0 <= i < |legs| && !LegSizeValid(legs[i]) then Some(InvalidLegSize)
    else if !WritesTo(legs[0], first) || WritesTo(legs[0], second) then Some(FirstLegMissesIntermediate)
    else if legs[1].programId == LAUNCHLAB_PROGRAM || !LegMatches(legs[1], accounts.payer, first, second, true) then
      Some(InvalidDynamicLeg)
    else if !LegMatches(legs[2], accounts.payer, second, accounts.outputTokenAccount, true) then Some(InvalidDynamicLeg)
    else None
  }

  function ThreeHopInstruction(programId: Pubkey, config: Pubkey, accounts: RouteAccounts, first: Pubkey,
                               second: Pubkey, amountIn: u64, firstMinOut: u64, secondMinOut: u64, minAmountOut: u64,
                               mint: Pubkey, legs: seq<Leg>, spendActualOutput: bool): Result<Instruction, RouteError> {
    if |legs| != 3 then Failure(WrongLegCount)
    else if !spendActualOutput then
      Success(RouteInstruction(programId, config, accounts, amountIn, minAmountOut, FEE_ASSET_TOKEN, false, mint, legs))
    else
      match CheckThreeHop(accounts, first, second, amountIn, firstMinOut, secondMinOut, minAmountOut, mint, legs)
      case Some(error) => Failure(error)
      case None =>
        Success(Instruction(programId, Metas(accounts, config, [first, second], legs, 3),
                            Encode(DynamicRoute(amountIn, [firstMinOut, secondMinOut], minAmountOut, mint, legs))))
  }

  method BuildThreeHopRouteInstruction(programId: Pubkey, config: Pubkey, accounts: RouteAccounts, first: Pubkey,
                                       second: Pubkey, amountIn: u64, firstMinOut: u64, secondMinOut: u64,
                                       minAmountOut: u64, mint: Pubkey, legs: seq<Leg>, spendActualOutput: bool)
    returns (r: Result<Instruction, RouteError>)
    ensures r == ThreeHopInstruction(programId, config, accounts, first, second, amountIn, firstMinOut, secondMinOut,
                                     minAmountOut, mint, legs, spendActualOutput)
  {
    if |legs| != 3 {
      return Failure(WrongLegCount);
    }
    if !spendActualOutput {
      var ix := BuildRouteInstructionEx(programId, config, accounts, amountIn, minAmountOut, FEE_ASSET_TOKEN, false,
                                        mint, legs);
      return Success(ix);
    }
    var error := CheckThreeHop(accounts, first, second, amountIn, firstMinOut, secondMinOut, minAmountOut, mint, legs);
    if error.Some? {
      return Failure(error.value);
    }
    var data := Byte(TAG_ROUTE_DYNAMIC_THREE);
    data := data + Le64(amountIn);
    data := data + Le64(minAmountOut);
    data := data + Byte(FEE_ASSET_TOKEN);
    data := data + Byte(3);
    data := data + LeBytes(32, mint);
    data := data + Le64(firstMinOut);
    data := data + Le64(secondMinOut);
    var metas := FixedMetas(accounts, config) + [Writable(first), Writable(second)];
    ghost var route := DynamicRoute(amountIn, [firstMinOut, secondMinOut], minAmountOut, mint, legs);
    assert EncodeFloors([secondMinOut]) == Le64(secondMinOut);
    assert route.floors[1..] == [secondMinOut];
    assert EncodeFloors(route.floors) == Le64(firstMinOut) + Le64(secondMinOut);
    assert data == EncodeHead(route) + EncodeFloors(route.floors);
    assert metas == FixedMetas(accounts, config) + WritableAll([first, second]);
    data, metas := AppendAll(data, metas, accounts, legs, 3);
    return Success(Instruction(programId, metas, data));
  }

  // ----- what a receiver can rely on -----

  /** The route's fields, one by one. */
  ghost predicate Says(route: Option<Route>, tag: u8, amountIn: u64, minAmountOut: u64, feeAsset: u8, mint: Pubkey,
                       floors: seq<u64>, legs: seq<Leg>) {
    && route.Some?
    && route.value.tag == tag && route.value.amountIn == amountIn && route.value.minAmountOut == minAmountOut
    && route.value.feeAsset == feeAsset && route.value.outputMint == mint
    && route.value.floors == floors && route.value.legs == legs
  }

  function KeysOf(metas: seq<AccountMeta>): seq<Pubkey> {
    seq(|metas|, i requires 0 <= i < |metas| => metas[i].pubkey)
  }

  /** The metas start with the fixed accounts and the intermediates, of which the payer alone signs, and
      all but the configuration and the fee program are writable. */
  ghost predicate StartsWithFixed(metas: seq<AccountMeta>, accounts: RouteAccounts, config: Pubkey,
                                  intermediates: seq<Pubkey>) {
    var n := 6 + |intermediates|;
    && n <= |metas|
    && metas[0].pubkey == accounts.payer && metas[1].pubkey == config
    && metas[2].pubkey == accounts.feeDestination && metas[3].pubkey == accounts.feeSource
    && metas[4].pubkey == accounts.outputTokenAccount && metas[5].pubkey == accounts.feeProgram
    && KeysOf(metas[6..n]) == intermediates
    && forall i :: 0 <= i < n ==> (metas[i].isSigner <==> i == 0) && (metas[i].isWritable <==> i != 1 && i != 5)
  }

  lemma FixedAccountsReadBack(accounts: RouteAccounts, config: Pubkey, intermediates: seq<Pubkey>, legs: seq<Leg>,
                              capacity: nat)
    ensures StartsWithFixed(Metas(accounts, config, intermediates, legs, capacity), accounts, config, intermediates)
  {
    var metas := Metas(accounts, config, intermediates, legs, capacity);
    var fixed := FixedMetas(accounts, config) + WritableAll(intermediates);
    var n := 6 + |intermediates|;
    assert metas[..n] == fixed;
    assert forall i :: 0 <= i < n ==> metas[i] == fixed[i];
    assert KeysOf(metas[6..n]) == intermediates;
  }

  /** A built instruction decodes to its route exactly when the route's counts fit their fields. */
  lemma InstructionDecodes(accounts: RouteAccounts, config: Pubkey, intermediates: seq<Pubkey>, route: Route,
                           capacity: nat)
    requires FloorCount(route.tag) == Some(|route.floors|) && |intermediates| == |route.floors|
    ensures Decode(Encode(route), Metas(accounts, config, intermediates, route.legs, capacity)) == Some(route)
            <==> Fits(route)
  {
    var fixed := FixedMetas(accounts, config) + WritableAll(intermediates);
    var metas := fixed + AllAccounts(route.legs) + ProgramTail(route.legs, capacity);
    var tail := ProgramTail(route.legs, capacity) + FeeMintTail(metas, accounts);
    assert Metas(accounts, config, intermediates, route.legs, capacity) == fixed + AllAccounts(route.legs) + tail;
    DecodesBack(route, fixed, tail);
  }

  /** The fixed-input builder checks no lengths: its instruction reads back exactly for fewer than
      256 legs, each with fewer than 256 accounts and 65536 data bytes. */
  lemma RouteInstructionDecodes(programId: Pubkey, config: Pubkey, accounts: RouteAccounts, amountIn: u64,
                                minAmountOut: u64, feeAsset: u8, exactOut: bool, mint: Pubkey, legs: seq<Leg>)
    ensures var ix := RouteInstruction(programId, config, accounts, amountIn, minAmountOut, feeAsset, exactOut, mint,
                                       legs);
            && ix.programId == programId && StartsWithFixed(ix.accounts, accounts, config, [])
            && (Says(Decode(ix.data, ix.accounts), 2, amountIn, minAmountOut,
                     feeAsset % 2 + (if exactOut then 0x80 else 0), mint, [], legs)
                <==> |legs| < 0x100 && forall i :: 0 <= i < |legs| ==> LegFits(legs[i]))
  {
    FixedAccountsReadBack(accounts, config, [], legs, 4);
    InstructionDecodes(accounts, config, [],
                       FixedInputRoute(amountIn, minAmountOut, feeAsset, exactOut, mint, legs), 4);
  }

  /** A route of 256 legs is built, and is not read back. */
  lemma LongRouteIsMisread(programId: Pubkey, config: Pubkey, accounts: RouteAccounts, amountIn: u64,
                           minAmountOut: u64, mint: Pubkey, leg: Leg)
    ensures var legs := seq(256, _ => leg);
            var ix := RouteInstruction(programId, config, accounts, amountIn, minAmountOut, FEE_ASSET_TOKEN, false,
                                       mint, legs);
            !Says(Decode(ix.data, ix.accounts), 2, amountIn, minAmountOut, 1, mint, [], legs)
  {
    RouteInstructionDecodes(programId, config, accounts, amountIn, minAmountOut, FEE_ASSET_TOKEN, false, mint,
                            seq(256, _ => leg));
  }

  lemma TwoLegRouteFits(amountIn: u64, floor: u64, minAmountOut: u64, mint: Pubkey, first: Leg, second: Leg)
    requires LegFits(first) && LegFits(second)
    ensures Fits(DynamicRoute(amountIn, [floor], minAmountOut, mint, [first, second]))
  {
  }

  /** The dynamic builders check enough that what they build always decodes back. */
  lemma DynamicInstructionDecodes(programId: Pubkey, config: Pubkey, accounts: RouteAccounts, intermediate: Pubkey,
                                  amountIn: u64, intermediateMinOut: u64, minAmountOut: u64, mint: Pubkey,
                                  first: Leg, second: Leg)
    requires DynamicInstruction(programId, config, accounts, intermediate, amountIn, intermediateMinOut, minAmountOut,
                                mint, first, second).Success?
    ensures var ix := DynamicInstruction(programId, config, accounts, intermediate, amountIn, intermediateMinOut,
                                         minAmountOut, mint, first, second).value;
            && ix.programId == programId && StartsWithFixed(ix.accounts, accounts, config, [intermediate])
            && Says(Decode(ix.data, ix.accounts), 5, amountIn, minAmountOut, 1, mint, [intermediateMinOut],
                    [first, second])
  {
    var route := DynamicRoute(amountIn, [intermediateMinOut], minAmountOut, mint, [first, second]);
    TwoLegRouteFits(amountIn, intermediateMinOut, minAmountOut, mint, first, second);
    FixedAccountsReadBack(accounts, config, [intermediate], [first, second], 4);
    InstructionDecodes(accounts, config, [intermediate], route, 4);
  }

  lemma ThreeLegRouteFits(amountIn: u64, floors: seq<u64>, minAmountOut: u64, mint: Pubkey, legs: seq<Leg>)
    requires |legs| == 3 && |floors| == 2 && forall i :: 0 <= i < 3 ==> LegSizeValid(legs[i])
    ensures Fits(DynamicRoute(amountIn, floors, minAmountOut, mint, legs))
  {
  }

  /** So does what the dynamic three-hop builder builds. */
  lemma ThreeHopInstructionDecodes(programId: Pubkey, config: Pubkey, accounts: RouteAccounts, first: Pubkey,
                                   second: Pubkey, amountIn: u64, firstMinOut: u64, secondMinOut: u64,
                                   minAmountOut: u64, mint: Pubkey, legs: seq<Leg>)
    requires ThreeHopInstruction(programId, config, accounts, first, second, amountIn, firstMinOut, secondMinOut,
                                 minAmountOut, mint, legs, true).Success?
    ensures var ix := ThreeHopInstruction(programId, config, accounts, first, second, amountIn, firstMinOut,
                                          secondMinOut, minAmountOut, mint, legs, true).value;
            && ix.programId == programId && StartsWithFixed(ix.accounts, accounts, config, [first, second])
            && Says(Decode(ix.data, ix.accounts), 6, amountIn, minAmountOut, 1, mint, [firstMinOut, secondMinOut], legs)
  {
    var route := DynamicRoute(amountIn, [firstMinOut, secondMinOut], minAmountOut, mint, legs);
    ThreeLegRouteFits(amountIn, [firstMinOut, secondMinOut], minAmountOut, mint, legs);
    FixedAccountsReadBack(accounts, config, [first, second], legs, 3);
    InstructionDecodes(accounts, config, [first, second], route, 3);
  }

  /** The leg is one of the venues' swaps of `input` for `output`, with any amounts. */
  ghost predicate SwapsSome(leg: Leg, payer: Pubkey, input: Pubkey, output: Pubkey) {
    exists amount: u64, floor: u64 :: Swaps(leg, payer, input, output, amount, floor)
  }

  /** The same with a placeholder of zero for the input amount. */
  ghost predicate SwapsNothing(leg: Leg, payer: Pubkey, input: Pubkey, output: Pubkey) {
    exists floor: u64 :: Swaps(leg, payer, input, output, 0, floor)
  }

  /** The dynamic two-leg builder accepts exactly these routes. */
  lemma DynamicAcceptsExactly(programId: Pubkey, config: Pubkey, accounts: RouteAccounts, intermediate: Pubkey,
                              amountIn: u64, intermediateMinOut: u64, minAmountOut: u64, mint: Pubkey, first: Leg,
                              second: Leg)
    ensures DynamicInstruction(programId, config, accounts, intermediate, amountIn, intermediateMinOut, minAmountOut,
                               mint, first, second).Success?
            <==> && 0 < amountIn && 0 < intermediateMinOut && 0 < minAmountOut && mint != SYSTEM_PROGRAM
                 && intermediate !in {accounts.feeSource, accounts.outputTokenAccount}
                 && (exists meta :: meta in first.accounts && meta.pubkey == intermediate && meta.isWritable)
                 && SwapsSome(second, accounts.payer, intermediate, accounts.outputTokenAccount)
                 && |first.accounts| <= 64 && |second.accounts| <= 64
                 && LegFits(first) && LegFits(second)
  {
    MatchesExactly(second, accounts.payer, intermediate, accounts.outputTokenAccount, false);
  }

  lemma LegChecks(leg: Leg, key: Pubkey, payer: Pubkey, input: Pubkey, output: Pubkey)
    ensures WritesTo(leg, key) <==> exists meta :: meta in leg.accounts && meta.pubkey == key && meta.isWritable
    ensures LegMatches(leg, payer, input, output, false) <==> SwapsSome(leg, payer, input, output)
    ensures LegMatches(leg, payer, input, output, true) <==> SwapsNothing(leg, payer, input, output)
  {
    MatchesExactly(leg, payer, input, output, false);
    MatchesExactly(leg, payer, input, output, true);
  }

  lemma ThreeHopChecks(accounts: RouteAccounts, first: Pubkey, second: Pubkey, amountIn: u64, firstMinOut: u64,
                       secondMinOut: u64, minAmountOut: u64, mint: Pubkey, legs: seq<Leg>)
    requires |legs| == 3
    ensures CheckThreeHop(accounts, first, second, amountIn, firstMinOut, secondMinOut, minAmountOut, mint, legs).None?
            <==> && 0 < amountIn && 0 < firstMinOut && 0 < secondMinOut && 0 < minAmountOut
                 && mint != SYSTEM_PROGRAM && first != second
                 && {first, second} !! {accounts.feeSource, accounts.outputTokenAccount}
                 && (forall i :: 0 <= i < 3 ==> 0 < |legs[i].accounts| <= 64 && 0 < |legs[i].data| && LegFits(legs[i]))
                 && WritesTo(legs[0], first) && !WritesTo(legs[0], second)
                 && legs[1].programId != LAUNCHLAB_PROGRAM
                 && LegMatches(legs[1], accounts.payer, first, second, true)
                 && LegMatches(legs[2], accounts.payer, second, accounts.outputTokenAccount, true)
  {
  }

  /** The dynamic three-hop builder accepts exactly these: chained, placeholders zero, no LaunchLab in the
      middle, and accounts that do not alias. */
  lemma ThreeHopAcceptsExactly(programId: Pubkey, config: Pubkey, accounts: RouteAccounts, first: Pubkey,
                               second: Pubkey, amountIn: u64, firstMinOut: u64, secondMinOut: u64, minAmountOut: u64,
                               mint: Pubkey, legs: seq<Leg>)
    ensures ThreeHopInstruction(programId, config, accounts, first, second, amountIn, firstMinOut, secondMinOut,
                                minAmountOut, mint, legs, true).Success?
            <==> && |legs| == 3 && 0 < amountIn && 0 < firstMinOut && 0 < secondMinOut && 0 < minAmountOut
                 && mint != SYSTEM_PROGRAM && first != second
                 && {first, second} !! {accounts.feeSource, accounts.outputTokenAccount}
                 && (forall i :: 0 <= i < 3 ==> 0 < |legs[i].accounts| <= 64 && 0 < |legs[i].data| && LegFits(legs[i]))
                 && (exists meta :: meta in legs[0].accounts && meta.pubkey == first && meta.isWritable)
                 && !(exists meta :: meta in legs[0].accounts && meta.pubkey == second && meta.isWritable)
                 && legs[1].programId != LAUNCHLAB_PROGRAM
                 && SwapsNothing(legs[1], accounts.payer, first, second)
                 && SwapsNothing(legs[2], accounts.payer, second, accounts.outputTokenAccount)
  {
    if |legs| == 3 {
      ThreeHopChecks(accounts, first, second, amountIn, firstMinOut, secondMinOut, minAmountOut, mint, legs);
      LegChecks(legs[0], first, accounts.payer, first, second);
      LegChecks(legs[0], second, accounts.payer, first, second);
      LegChecks(legs[1], first, accounts.payer, first, second);
      LegChecks(legs[2], first, accounts.payer, second, accounts.outputTokenAccount);
    }
  }

  /** Once the router has written `received` into a leg, the leg still spends `input` into `output`. */
  ghost predicate LinksAfter(leg: Leg, received: u64, payer: Pubkey, input: Pubkey, output: Pubkey) {
    && DynamicLegLayout(leg).Some?
    && var offset := DynamicLegLayout(leg).value.amountOffset;
       && offset + 8 <= |leg.data|
       && LegMatches(leg.(data := Overwrite(leg.data, offset, Le64(received))), payer, input, output, false)
  }

  /** The legs of a dynamic three-hop instruction are chained through the two intermediates: whatever
      amounts the router writes into the later legs, the second spends the first intermediate into the
      second, and the third spends that into the output. */
  lemma ThreeHopChains(programId: Pubkey, config: Pubkey, accounts: RouteAccounts, first: Pubkey, second: Pubkey,
                       amountIn: u64, firstMinOut: u64, secondMinOut: u64, minAmountOut: u64, mint: Pubkey,
                       legs: seq<Leg>, received1: u64, received2: u64)
    requires ThreeHopInstruction(programId, config, accounts, first, second, amountIn, firstMinOut, secondMinOut,
                                 minAmountOut, mint, legs, true).Success?
    ensures |legs| == 3 && WritesTo(legs[0], first) && !WritesTo(legs[0], second)
    ensures LinksAfter(legs[1], received1, accounts.payer, first, second)
    ensures LinksAfter(legs[2], received2, accounts.payer, second, accounts.outputTokenAccount)
  {
    OverwriteKeepsMatch(legs[1], accounts.payer, first, second, true, received1);
    OverwriteKeepsMatch(legs[2], accounts.payer, second, accounts.outputTokenAccount, true, received2);
  }

  function Programs(legs: seq<Leg>): set<Pubkey> {
    set leg | leg in legs :: leg.programId
  }

  ghost predicate Distinct(keys: seq<Pubkey>) {
    forall i, j :: 0 <= i < j < |keys| ==> keys[i] != keys[j]
  }

  lemma ProgramsSplit(legs: seq<Leg>)
    requires legs != []
    ensures Programs(legs) == Programs(legs[..|legs| - 1]) + {legs[|legs| - 1].programId}
  {
    assert legs == legs[..|legs| - 1] + [legs[|legs| - 1]];
  }

  /** The buffer holds programs of the route, as many as fit; it holds them all when they fit. */
  lemma {:induction false} RecordedCounts(legs: seq<Leg>, capacity: nat)
    ensures var seen := Recorded(legs, capacity);
            && (forall program :: program in seen ==> program in Programs(legs))
            && |seen| == Min(capacity, |Programs(legs)|)
            && (|Programs(legs)| <= capacity ==> forall program :: program in Programs(legs) ==> program in seen)
  {
    if legs != [] {
      var before, program := legs[..|legs| - 1], legs[|legs| - 1].programId;
      RecordedCounts(before, capacity);
      ProgramsSplit(legs);
      if program in Programs(before) {
        assert Programs(legs) == Programs(before);
      }
    }
  }

  /** Some leg uses the program before `capacity` distinct ones have been used. */
  ghost predicate UsedEarly(legs: seq<Leg>, capacity: nat, program: Pubkey) {
    exists i :: 0 <= i < |legs| && legs[i].programId == program && |Programs(legs[..i])| < capacity
  }

  lemma UsedEarlySplit(legs: seq<Leg>, leg: Leg, capacity: nat, program: Pubkey)
    ensures UsedEarly(legs + [leg], capacity, program)
            <==> UsedEarly(legs, capacity, program) || (leg.programId == program && |Programs(legs)| < capacity)
  {
    var all := legs + [leg];
    assert forall i :: 0 <= i < |legs| ==> all[i] == legs[i] && all[..i] == legs[..i];
    assert all[|legs|] == leg && all[..|legs|] == legs;
  }

  /** A program is remembered exactly when it is used early. */
  lemma {:induction false} RecordedExactly(legs: seq<Leg>, capacity: nat, program: Pubkey)
    ensures program in Recorded(legs, capacity) <==> UsedEarly(legs, capacity, program)
  {
    if legs != [] {
      var before, leg := legs[..|legs| - 1], legs[|legs| - 1];
      RecordedExactly(before, capacity, program);
      RecordedCounts(before, capacity);
      UsedEarlySplit(before, leg, capacity, program);
      assert legs == before + [leg];
    }
  }

  /** The tail lists read-only metas of exactly the legs' programs, whatever the buffer's size. */
  lemma {:induction false} TailHasEveryProgram(legs: seq<Leg>, capacity: nat)
    ensures forall meta :: meta in ProgramTail(legs, capacity)
              <==> meta == Readonly(meta.pubkey) && meta.pubkey in Programs(legs)
  {
    if legs != [] {
      TailHasEveryProgram(legs[..|legs| - 1], capacity);
      RecordedCounts(legs[..|legs| - 1], capacity);
      ProgramsSplit(legs);
    }
  }

  /** Every program that two legs share is remembered. */
  ghost predicate SharedAreRecorded(legs: seq<Leg>, capacity: nat) {
    forall i, j :: 0 <= i < j < |legs| && legs[i].programId == legs[j].programId ==>
      legs[j].programId in Recorded(legs, capacity)
  }

  /** A new leg does not change whether a program used before is remembered. */
  lemma RecordedEarlier(legs: seq<Leg>, capacity: nat)
    requires legs != []
    ensures var before := legs[..|legs| - 1];
            forall program :: program in Programs(before) ==>
              (program in Recorded(legs, capacity) <==> program in Recorded(before, capacity))
  {
    RecordedCounts(legs[..|legs| - 1], capacity);
  }

  lemma SharedSplit(legs: seq<Leg>, capacity: nat)
    requires legs != []
    ensures var before, program := legs[..|legs| - 1], legs[|legs| - 1].programId;
            SharedAreRecorded(legs, capacity)
            <==> && SharedAreRecorded(before, capacity)
                 && (program in Programs(before) ==> program in Recorded(legs, capacity))
  {
    var n := |legs| - 1;
    var before := legs[..n];
    RecordedEarlier(legs, capacity);
    var all, early := Recorded(legs, capacity), Recorded(before, capacity);
    assert forall i :: 0 <= i < n ==> before[i] == legs[i] && before[i].programId in Programs(before);
    assert forall i :: 0 <= i < n ==> (legs[i].programId in all <==> legs[i].programId in early);
  }

  lemma DistinctSplit(metas: seq<AccountMeta>, program: Pubkey)
    requires forall meta :: meta in metas ==> meta == Readonly(meta.pubkey)
    ensures Distinct(KeysOf(metas + [Readonly(program)]))
            <==> Distinct(KeysOf(metas)) && Readonly(program) !in metas
  {
    var keys := KeysOf(metas);
    assert KeysOf(metas + [Readonly(program)]) == keys + [program];
    assert program in keys <==> Readonly(program) in metas by {
      if i :| 0 <= i < |metas| && keys[i] == program {
        assert metas[i] in metas;
      }
      if i :| 0 <= i < |metas| && metas[i] == Readonly(program) {
        assert keys[i] == program;
      }
    }
    assert Distinct(keys + [program]) <==> Distinct(keys) && program !in keys by {
      assert forall i :: 0 <= i < |keys| ==> (keys + [program])[i] == keys[i];
      assert (keys + [program])[|keys|] == program;
    }
  }

  /** The tail names each program once exactly when every program that two legs share is remembered. */
  lemma {:induction false} TailListsOnceExactly(legs: seq<Leg>, capacity: nat)
    ensures Distinct(KeysOf(ProgramTail(legs, capacity))) <==> SharedAreRecorded(legs, capacity)
  {
    if legs != [] {
      var before, program := legs[..|legs| - 1], legs[|legs| - 1].programId;
      TailListsOnceExactly(before, capacity);
      SharedSplit(legs, capacity);
      RecordedCounts(before, capacity);
      TailHasEveryProgram(before, capacity);
      if program in Recorded(before, capacity) {
        assert ProgramTail(legs, capacity) == ProgramTail(before, capacity);
      } else {
        var tail := ProgramTail(before, capacity);
        assert ProgramTail(legs, capacity) == tail + [Readonly(program)];
        DistinctSplit(tail, program);
        assert Readonly(program) in tail <==> program in Programs(before);
      }
    }
  }

  lemma {:induction false} ProgramsCount(legs: seq<Leg>)
    ensures |Programs(legs)| <= |legs|
  {
    if legs != [] {
      ProgramsSplit(legs);
      ProgramsCount(legs[..|legs| - 1]);
    }
  }

  /** So it does while the distinct programs fit the buffer, as those of two legs fit four places and
      those of three legs fit three. */
  lemma TailListsProgramsOnce(legs: seq<Leg>, capacity: nat)
    requires |Programs(legs)| <= capacity || |legs| <= capacity
    ensures Distinct(KeysOf(ProgramTail(legs, capacity)))
  {
    ProgramsCount(legs);
    RecordedCounts(legs, capacity);
    TailListsOnceExactly(legs, capacity);
  }

  lemma {:induction false} DistinctTail(legs: seq<Leg>, capacity: nat)
    requires |legs| <= capacity && forall i, j :: 0 <= i < j < |legs| ==> legs[i].programId != legs[j].programId
    ensures var seen, tail := Recorded(legs, capacity), ProgramTail(legs, capacity);
            && |seen| == |tail| == |legs|
            && forall i :: 0 <= i < |legs| ==> seen[i] == legs[i].programId && tail[i] == Readonly(legs[i].programId)
  {
    if legs != [] {
      DistinctTail(legs[..|legs| - 1], capacity);
    }
  }

  /** Where an instruction's metas hold the program tail. */
  lemma TailFollowsLegs(accounts: RouteAccounts, config: Pubkey, intermediates: seq<Pubkey>, legs: seq<Leg>,
                        capacity: nat)
    ensures var metas, tail := Metas(accounts, config, intermediates, legs, capacity), ProgramTail(legs, capacity);
            var start := 6 + |intermediates| + |AllAccounts(legs)|;
            start + |tail| <= |metas| && metas[start..start + |tail|] == tail
  {
  }

  lemma FifthProgramRepeats(accounts: RouteAccounts, config: Pubkey, four: seq<Leg>, fifth: Leg)
    requires |four| == 4 && forall i, j :: 0 <= i < j < 4 ==> four[i].programId != four[j].programId
    requires forall i :: 0 <= i < 4 ==> four[i].programId != fifth.programId
    ensures var legs := four + [fifth] + [fifth];
            var metas := Metas(accounts, config, [], legs, 4);
            var start := 6 + |AllAccounts(legs)|;
            && start + 6 <= |metas|
            && KeysOf(metas[start..start + 6])
               == [four[0].programId, four[1].programId, four[2].programId, four[3].programId,
                   fifth.programId, fifth.programId]
  {
    DistinctTail(four, 4);
    TailOfOneMore(four, fifth, 4);
    TailOfOneMore(four + [fifth], fifth, 4);
    TailFollowsLegs(accounts, config, [], four + [fifth] + [fifth], 4);
  }

  /** A route through four other programs and twice through a fifth lists the fifth twice. */
  lemma UnrecordedProgramRepeats(programId: Pubkey, config: Pubkey, accounts: RouteAccounts, amountIn: u64,
                                 minAmountOut: u64, mint: Pubkey, four: seq<Leg>, fifth: Leg)
    requires |four| == 4 && forall i, j :: 0 <= i < j < 4 ==> four[i].programId != four[j].programId
    requires forall i :: 0 <= i < 4 ==> four[i].programId != fifth.programId
    ensures var legs := four + [fifth] + [fifth];
            var metas := RouteInstruction(programId, config, accounts, amountIn, minAmountOut, FEE_ASSET_TOKEN, false,
                                          mint, legs).accounts;
            var start := 6 + |AllAccounts(legs)|;
            && start + 6 <= |metas|
            && KeysOf(metas[start..start + 6])
               == [four[0].programId, four[1].programId, four[2].programId, four[3].programId,
                   fifth.programId, fifth.programId]
  {
    FifthProgramRepeats(accounts, config, four, fifth);
  }

  /** The metas are read-only and name each of the legs' programs once, and nothing else. */
  ghost predicate ListsOnce(metas: seq<AccountMeta>, legs: seq<Leg>) {
    && Distinct(KeysOf(metas))
    && forall meta :: meta in metas <==> meta == Readonly(meta.pubkey) && meta.pubkey in Programs(legs)
  }

  /** From `start` on, the metas list the legs' programs, and then at most a fee mint. */
  ghost predicate ListsPrograms(metas: seq<AccountMeta>, legs: seq<Leg>, start: nat) {
    exists end: nat :: start <= end <= |metas| <= end + 1 && ListsOnce(metas[start..end], legs)
  }

  lemma MetasListPrograms(accounts: RouteAccounts, config: Pubkey, intermediates: seq<Pubkey>, legs: seq<Leg>,
                          capacity: nat)
    requires |Programs(legs)| <= capacity || |legs| <= capacity
    ensures ListsPrograms(Metas(accounts, config, intermediates, legs, capacity), legs,
                          6 + |intermediates| + |AllAccounts(legs)|)
  {
    var metas, tail := Metas(accounts, config, intermediates, legs, capacity), ProgramTail(legs, capacity);
    var start := 6 + |intermediates| + |AllAccounts(legs)|;
    var end := start + |tail|;
    TailFollowsLegs(accounts, config, intermediates, legs, capacity);
    assert ListsOnce(tail, legs) by {
      TailListsProgramsOnce(legs, capacity);
      TailHasEveryProgram(legs, capacity);
    }
    assert metas[start..end] == tail;
  }

  /** A fixed-input instruction lists its legs' programs once while they are at most four. */
  lemma RouteListsPrograms(programId: Pubkey, config: Pubkey, accounts: RouteAccounts, amountIn: u64,
                           minAmountOut: u64, feeAsset: u8, exactOut: bool, mint: Pubkey, legs: seq<Leg>)
    requires |Programs(legs)| <= 4
    ensures ListsPrograms(RouteInstruction(programId, config, accounts, amountIn, minAmountOut, feeAsset, exactOut,
                                           mint, legs).accounts, legs, 6 + |AllAccounts(legs)|)
  {
    MetasListPrograms(accounts, config, [], legs, 4);
  }

  /** A dynamic two-leg instruction always does. */
  lemma DynamicListsPrograms(programId: Pubkey, config: Pubkey, accounts: RouteAccounts, intermediate: Pubkey,
                             amountIn: u64, intermediateMinOut: u64, minAmountOut: u64, mint: Pubkey, first: Leg,
                             second: Leg)
    ensures var ix := DynamicInstruction(programId, config, accounts, intermediate, amountIn, intermediateMinOut,
                                         minAmountOut, mint, first, second);
            ix.Success? ==>
              ListsPrograms(ix.value.accounts, [first, second], 7 + |AllAccounts([first, second])|)
  {
    MetasListPrograms(accounts, config, [intermediate], [first, second], 4);
  }

  /** And so does a dynamic three-hop one. */
  lemma ThreeHopListsPrograms(programId: Pubkey, config: Pubkey, accounts: RouteAccounts, first: Pubkey,
                              second: Pubkey, amountIn: u64, firstMinOut: u64, secondMinOut: u64, minAmountOut: u64,
                              mint: Pubkey, legs: seq<Leg>)
    ensures var ix := ThreeHopInstruction(programId, config, accounts, first, second, amountIn, firstMinOut,
                                          secondMinOut, minAmountOut, mint, legs, true);
            ix.Success? ==> ListsPrograms(ix.value.accounts, legs, 8 + |AllAccounts(legs)|)
  {
    if |legs| == 3 {
      MetasListPrograms(accounts, config, [first, second], legs, 3);
    }
  }

  /** In fixed-input mode a three-hop route is the fixed-input instruction, over exactly three legs. */
  lemma ThreeHopFixedInput(programId: Pubkey, config: Pubkey, accounts: RouteAccounts, first: Pubkey, second: Pubkey,
                           amountIn: u64, firstMinOut: u64, secondMinOut: u64, minAmountOut: u64, mint: Pubkey,
                           legs: seq<Leg>)
    ensures ThreeHopInstruction(programId, config, accounts, first, second, amountIn, firstMinOut, secondMinOut,
                                minAmountOut, mint, legs, false)
            == if |legs| == 3 then
                 Success(RouteInstruction(programId, config, accounts, amountIn, minAmountOut, 1, false, mint, legs))
               else Failure(WrongLegCount)
  {
  }

  /** The fee mint is named, read-only and last, exactly for a Token-2022 fee whose mint no other account of
      the route is; everything else stays where it is. `others` is the same route without that need. */
  lemma FeeMintMovesNothing(accounts: RouteAccounts, config: Pubkey, intermediates: seq<Pubkey>, legs: seq<Leg>,
                            capacity: nat)
    ensures var others := Metas(accounts.(feeMint := accounts.payer), config, intermediates, legs, capacity);
            Metas(accounts, config, intermediates, legs, capacity)
            == others + if accounts.feeProgram == TOKEN_2022_PROGRAM && accounts.feeMint !in KeysOf(others)
                        then [Readonly(accounts.feeMint)] else []
  {
    var base := FixedMetas(accounts, config) + WritableAll(intermediates) + AllAccounts(legs)
                + ProgramTail(legs, capacity);
    assert base[0].pubkey == accounts.payer;
    assert Metas(accounts.(feeMint := accounts.payer), config, intermediates, legs, capacity) == base;
    assert accounts.feeMint in KeysOf(base) <==> exists i :: 0 <= i < |base| && base[i].pubkey == accounts.feeMint by {
      if i :| 0 <= i < |base| && base[i].pubkey == accounts.feeMint {
        assert KeysOf(base)[i] == accounts.feeMint;
      }
    }
  }
}
