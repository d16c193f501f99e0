/** The route instruction's bytes, with the three header shapes of crates/sdk/src/route_ix.rs, and a
    reference decoder generalising crates/sdk/src/mainnet_sim.rs:169-185. */
module RouteCodec {
  import opened Wrappers
  import opened Arith
  import opened Bytes
  import opened Keys

  const TAG_ROUTE: u8 := 2
  const TAG_ROUTE_DYNAMIC: u8 := 5
  const TAG_ROUTE_DYNAMIC_THREE: u8 := 6

  /** Everything a route instruction says. `floors` are the intermediate minimum outputs. */
  datatype Route = Route(
    tag: u8,
    amountIn: u64,
    minAmountOut: u64,
    feeAsset: u8,
    outputMint: Pubkey,
    floors: seq<u64>,
    legs: seq<Leg>)

  function FloorCount(tag: u8): Option<nat> {
    if tag == TAG_ROUTE then Some(0)
    else if tag == TAG_ROUTE_DYNAMIC then Some(1)
    else if tag == TAG_ROUTE_DYNAMIC_THREE then Some(2)
    else None
  }

  function EncodeLeg(leg: Leg): seq<u8> {
    LeBytes(32, leg.programId) + Byte(|leg.accounts| % 0x100) + Le16(|leg.data| % 0x1_0000) + leg.data
  }

  function EncodeLegs(legs: seq<Leg>): seq<u8> {
    if legs == [] then [] else EncodeLeg(legs[0]) + EncodeLegs(legs[1..])
  }

  function EncodeFloors(floors: seq<u64>): (s: seq<u8>)
    ensures |s| == 8 * |floors|
  {
    if floors == [] then [] else Le64(floors[0]) + EncodeFloors(floors[1..])
  }

  function EncodeHead(r: Route): (s: seq<u8>)
    ensures |s| == 51
  {
    Byte(r.tag) + Le64(r.amountIn) + Le64(r.minAmountOut) + Byte(r.feeAsset) + Byte(|r.legs| % 0x100)
    + LeBytes(32, r.outputMint)
  }

  function Encode(r: Route): seq<u8> {
    EncodeHead(r) + EncodeFloors(r.floors) + EncodeLegs(r.legs)
  }

  function AllAccounts(legs: seq<Leg>): seq<AccountMeta> {
    if legs == [] then [] else legs[0].accounts + AllAccounts(legs[1..])
  }

  function DecodeKey(bytes: seq<u8>): Pubkey
    requires |bytes| == 32
  {
    Widths();
    LeNat(bytes)
  }

  function Decode64(bytes: seq<u8>): u64
    requires |bytes| == 8
  {
    Widths();
    LeNat(bytes)
  }

  /** Reads exactly `n` legs from the bytes, slicing their accounts off the metas. */
  function DecodeLegs(n: nat, bytes: seq<u8>, metas: seq<AccountMeta>): Option<seq<Leg>> {
    if n == 0 then if bytes == [] then Some([]) else None
    else if |bytes| < 35 then None
    else
      var count, length := bytes[32] as nat, LeNat(bytes[33..35]);
      if |bytes| < 35 + length || |metas| < count then None
      else
        match DecodeLegs(n - 1, bytes[35 + length..], metas[count..])
        case None => None
        case Some(rest) =>
          Some([Leg(DecodeKey(bytes[..32]), metas[..count], bytes[35..35 + length])] + rest)
  }

  function DecodeFloors(n: nat, bytes: seq<u8>): seq<u64>
    requires 8 * n == |bytes|
  {
    if n == 0 then [] else [Decode64(bytes[..8])] + DecodeFloors(n - 1, bytes[8..])
  }

  /** The header length is 51, 59 or 67 and the fixed accounts are 6, 7 or 8, by tag. */
  function Decode(bytes: seq<u8>, metas: seq<AccountMeta>): Option<Route> {
    if |bytes| < 51 || FloorCount(bytes[0]).None? then None
    else
      var k := FloorCount(bytes[0]).value;
      if |bytes| < 51 + 8 * k || |metas| < 6 + k then None
      else
        match DecodeLegs(bytes[18], bytes[51 + 8 * k..], metas[6 + k..])
        case None => None
        case Some(legs) =>
          Some(Route(bytes[0], Decode64(bytes[1..9]), Decode64(bytes[9..17]), bytes[17],
                     DecodeKey(bytes[19..51]), DecodeFloors(k, bytes[51..51 + 8 * k]), legs))
  }

  predicate LegFits(leg: Leg) {
    |leg.accounts| < 0x100 && |leg.data| < 0x1_0000
  }

  /** The route's counts fit the fields that carry them. */
  predicate Fits(r: Route) {
    && FloorCount(r.tag) == Some(|r.floors|)
    && |r.legs| < 0x100
    && forall i :: 0 <= i < |r.legs| ==> LegFits(r.legs[i])
  }

  /** The five parts of a leg and what follows it are found at their offsets. */
  lemma LegParts(s: seq<u8>, key: seq<u8>, count: seq<u8>, length: seq<u8>, data: seq<u8>, rest: seq<u8>)
    requires |key| == 32 && |count| == 1 && |length| == 2
    requires s == key + count + length + data + rest
    ensures 35 + |data| <= |s| && s[32] == count[0] && s[33..35] == length && s[..32] == key
    ensures s[35..35 + |data|] == data && s[35 + |data|..] == rest
  {
  }

  /** A fitting leg's fields are found where its encoding puts them. */
  lemma LegFields(leg: Leg, bytes: seq<u8>)
    requires LegFits(leg)
    ensures var s := EncodeLeg(leg) + bytes;
            && 35 + |leg.data| <= |s|
            && s[32] == |leg.accounts|
            && s[33..35] == LeBytes(2, |leg.data|)
            && s[..32] == LeBytes(32, leg.programId)
            && s[35..35 + |leg.data|] == leg.data
            && s[35 + |leg.data|..] == bytes
  {
    LegParts(EncodeLeg(leg) + bytes, LeBytes(32, leg.programId), Byte(|leg.accounts|), Le16(|leg.data|), leg.data,
             bytes);
  }

  lemma LegRoundTrip(leg: Leg, bytes: seq<u8>)
    requires LegFits(leg)
    ensures var s := EncodeLeg(leg) + bytes;
            && 35 <= |s|
            && LeNat(s[33..35]) == |leg.data|
            && DecodeKey(s[..32]) == leg.programId
  {
    LegFields(leg, bytes);
    Widths();
    LeRoundTrip(32, leg.programId);
    LeRoundTrip(2, |leg.data|);
  }

  /** Legs and their accounts follow each other in order. */
  lemma {:induction false} LegsInOrder(before: seq<Leg>, leg: Leg)
    ensures EncodeLegs(before + [leg]) == EncodeLegs(before) + EncodeLeg(leg)
    ensures AllAccounts(before + [leg]) == AllAccounts(before) + leg.accounts
  {
    var all := before + [leg];
    if before == [] {
      assert all[1..] == [];
    } else {
      assert all[1..] == before[1..] + [leg];
      LegsInOrder(before[1..], leg);
    }
  }

  /** The floors follow each other in order, eight bytes each. */
  lemma {:induction false} FloorsInOrder(floors: seq<u64>, i: nat)
    requires i < |floors|
    ensures EncodeFloors(floors)[8 * i..8 * i + 8] == Le64(floors[i])
  {
    if i != 0 {
      FloorsInOrder(floors[1..], i - 1);
      assert EncodeFloors(floors)[8..] == EncodeFloors(floors[1..]);
    }
  }

  /** One leg is read off the front, and the rest is left for the rest. */
  lemma DecodeOneLeg(n: nat, leg: Leg, bytes: seq<u8>, metas: seq<AccountMeta>)
    requires LegFits(leg)
    ensures var rest := DecodeLegs(n, bytes, metas);
            DecodeLegs(n + 1, EncodeLeg(leg) + bytes, leg.accounts + metas)
            == if rest.None? then None else Some([leg] + rest.value)
  {
    LegFields(leg, bytes);
    LegRoundTrip(leg, bytes);
    var all := leg.accounts + metas;
    assert all[..|leg.accounts|] == leg.accounts;
    assert all[|leg.accounts|..] == metas;
  }

  /** Decoding a leg's bytes in front of bytes that decode gives one more leg. */
  lemma DecodeCons(leg: Leg, rest: seq<Leg>, bytes: seq<u8>, metas: seq<AccountMeta>, all: seq<u8>,
                   allMetas: seq<AccountMeta>)
    requires LegFits(leg) && DecodeLegs(|rest|, bytes, metas) == Some(rest)
    requires all == EncodeLeg(leg) + bytes && allMetas == leg.accounts + metas
    ensures DecodeLegs(|rest| + 1, all, allMetas) == Some([leg] + rest)
  {
    DecodeOneLeg(|rest|, leg, bytes, metas);
  }

  lemma AccountsSplit(legs: seq<Leg>, tail: seq<AccountMeta>)
    requires legs != []
    ensures AllAccounts(legs) + tail == legs[0].accounts + (AllAccounts(legs[1..]) + tail)
  {
  }

  lemma {:induction false} LegsRoundTrip(legs: seq<Leg>, tail: seq<AccountMeta>)
    requires forall i :: 0 <= i < |legs| ==> LegFits(legs[i])
    ensures DecodeLegs(|legs|, EncodeLegs(legs), AllAccounts(legs) + tail) == Some(legs)
  {
    if legs == [] {
    } else {
      LegsRoundTrip(legs[1..], tail);
      AccountsSplit(legs, tail);
      DecodeCons(legs[0], legs[1..], EncodeLegs(legs[1..]), AllAccounts(legs[1..]) + tail,
                 EncodeLegs(legs), AllAccounts(legs) + tail);
      assert legs == [legs[0]] + legs[1..];
    }
  }

  lemma {:induction false} FloorsRoundTrip(floors: seq<u64>)
    ensures DecodeFloors(|floors|, EncodeFloors(floors)) == floors
  {
    if floors != [] {
      FloorsRoundTrip(floors[1..]);
      var s := EncodeFloors(floors);
      assert s[..8] == Le64(floors[0]);
      assert s[8..] == EncodeFloors(floors[1..]);
    }
  }

  /** The six parts of a header are found at their offsets. */
  lemma HeadParts(s: seq<u8>, tag: seq<u8>, amountIn: seq<u8>, minOut: seq<u8>, feeAsset: seq<u8>, count: seq<u8>,
                  mint: seq<u8>, rest: seq<u8>)
    requires |tag| == |feeAsset| == |count| == 1 && |amountIn| == |minOut| == 8 && |mint| == 32
    requires s == tag + amountIn + minOut + feeAsset + count + mint + rest
    ensures 51 <= |s| && s[0] == tag[0] && s[17] == feeAsset[0] && s[18] == count[0]
    ensures s[1..9] == amountIn && s[9..17] == minOut && s[19..51] == mint && s[51..] == rest
  {
  }

  lemma HeadFields(r: Route, rest: seq<u8>)
    requires |r.legs| < 0x100
    ensures var s := EncodeHead(r) + rest;
            && s[0] == r.tag
            && Decode64(s[1..9]) == r.amountIn
            && Decode64(s[9..17]) == r.minAmountOut
            && s[17] == r.feeAsset
            && s[18] == |r.legs|
            && DecodeKey(s[19..51]) == r.outputMint
            && s[51..] == rest
  {
    Widths();
    LeRoundTrip(32, r.outputMint);
    HeadParts(EncodeHead(r) + rest, Byte(r.tag), Le64(r.amountIn), Le64(r.minAmountOut), Byte(r.feeAsset),
              Byte(|r.legs|), LeBytes(32, r.outputMint), rest);
  }

  lemma {:induction false} DecodedLegsFit(n: nat, bytes: seq<u8>, metas: seq<AccountMeta>)
    ensures var legs := DecodeLegs(n, bytes, metas);
            legs.Some? ==> |legs.value| == n && forall i :: 0 <= i < n ==> LegFits(legs.value[i])
  {
    if n != 0 && 35 <= |bytes| {
      Widths();
      var count, length := bytes[32] as nat, LeNat(bytes[33..35]);
      if 35 + length <= |bytes| && count <= |metas| {
        DecodedLegsFit(n - 1, bytes[35 + length..], metas[count..]);
      }
    }
  }

  lemma {:induction false} DecodedFloorCount(n: nat, bytes: seq<u8>)
    requires 8 * n == |bytes|
    ensures |DecodeFloors(n, bytes)| == n
  {
    if n != 0 {
      DecodedFloorCount(n - 1, bytes[8..]);
    }
  }

  /** Bytes whose fields read as the route's decode to it. */
  lemma DecodeAssembles(bytes: seq<u8>, metas: seq<AccountMeta>, r: Route)
    requires FloorCount(r.tag) == Some(|r.floors|)
    requires 51 + 8 * |r.floors| <= |bytes| && 6 + |r.floors| <= |metas|
    requires bytes[0] == r.tag && bytes[17] == r.feeAsset && bytes[18] == |r.legs|
    requires Decode64(bytes[1..9]) == r.amountIn && Decode64(bytes[9..17]) == r.minAmountOut
    requires DecodeKey(bytes[19..51]) == r.outputMint
    requires DecodeFloors(|r.floors|, bytes[51..51 + 8 * |r.floors|]) == r.floors
    requires DecodeLegs(|r.legs|, bytes[51 + 8 * |r.floors|..], metas[6 + |r.floors|..]) == Some(r.legs)
    ensures Decode(bytes, metas) == Some(r)
  {
  }

  /** The header, floors and legs of an encoded route are found where the decoder reads them. */
  lemma EncodedParts(r: Route, bytes: seq<u8>)
    requires |r.legs| < 0x100 && bytes == Encode(r)
    ensures var n := 51 + 8 * |r.floors|;
            && n <= |bytes|
            && bytes[0] == r.tag && bytes[17] == r.feeAsset && bytes[18] == |r.legs|
            && Decode64(bytes[1..9]) == r.amountIn && Decode64(bytes[9..17]) == r.minAmountOut
            && DecodeKey(bytes[19..51]) == r.outputMint
            && bytes[51..n] == EncodeFloors(r.floors) && bytes[n..] == EncodeLegs(r.legs)
  {
    var floors, legs := EncodeFloors(r.floors), EncodeLegs(r.legs);
    assert bytes == EncodeHead(r) + (floors + legs);
    HeadFields(r, floors + legs);
    assert bytes[51..] == floors + legs;
  }

  lemma EncodedPartsDecode(r: Route, bytes: seq<u8>, metas: seq<AccountMeta>, tail: seq<AccountMeta>)
    requires Fits(r) && bytes == Encode(r)
    requires 6 + |r.floors| <= |metas| && metas[6 + |r.floors|..] == AllAccounts(r.legs) + tail
    ensures Decode(bytes, metas) == Some(r)
  {
    EncodedParts(r, bytes);
    FloorsRoundTrip(r.floors);
    LegsRoundTrip(r.legs, tail);
    DecodeAssembles(bytes, metas, r);
  }

  lemma FittingDecodes(r: Route, fixed: seq<AccountMeta>, tail: seq<AccountMeta>)
    requires Fits(r) && |fixed| == 6 + |r.floors|
    ensures Decode(Encode(r), fixed + AllAccounts(r.legs) + tail) == Some(r)
  {
    var metas := fixed + AllAccounts(r.legs) + tail;
    assert metas[|fixed|..] == AllAccounts(r.legs) + tail;
    EncodedPartsDecode(r, Encode(r), metas, tail);
  }

  /** Only fitting routes are ever decoded. */
  lemma DecodedFits(bytes: seq<u8>, metas: seq<AccountMeta>)
    ensures Decode(bytes, metas).Some? ==> Fits(Decode(bytes, metas).value)
  {
    if Decode(bytes, metas).Some? {
      var k := FloorCount(bytes[0]).value;
      DecodedLegsFit(bytes[18], bytes[51 + 8 * k..], metas[6 + k..]);
      DecodedFloorCount(k, bytes[51..51 + 8 * k]);
    }
  }

  /** Decoding an encoded route, with its metas between the fixed ones and any tail, gives the route
      back exactly when its counts fit their u8 and u16 fields. */
  lemma DecodesBack(r: Route, fixed: seq<AccountMeta>, tail: seq<AccountMeta>)
    requires FloorCount(r.tag) == Some(|r.floors|) && |fixed| == 6 + |r.floors|
    ensures Decode(Encode(r), fixed + AllAccounts(r.legs) + tail) == Some(r) <==> Fits(r)
  {
    if Fits(r) {
      FittingDecodes(r, fixed, tail);
    }
    DecodedFits(Encode(r), fixed + AllAccounts(r.legs) + tail);
  }

  /** Two fitting routes with the same bytes and metas are the same route, however their fixed
      accounts and tails were chosen. */
  lemma EncodingIsInjective(r: Route, fixed: seq<AccountMeta>, tail: seq<AccountMeta>,
                            r': Route, fixed': seq<AccountMeta>, tail': seq<AccountMeta>)
    requires Fits(r) && |fixed| == 6 + |r.floors|
    requires Fits(r') && |fixed'| == 6 + |r'.floors|
    requires Encode(r) == Encode(r')
    requires fixed + AllAccounts(r.legs) + tail == fixed' + AllAccounts(r'.legs) + tail'
    ensures r == r' && fixed == fixed' && tail == tail'
  {
    DecodesBack(r, fixed, tail);
    DecodesBack(r', fixed', tail');
    var metas := fixed + AllAccounts(r.legs) + tail;
    var n := |fixed|;
    assert metas[..n] == fixed && metas[..n] == fixed';
    assert metas[n + |AllAccounts(r.legs)|..] == tail;
    assert metas[n + |AllAccounts(r.legs)|..] == tail';
  }
}
