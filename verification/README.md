# Quotes, routes and snapshots of the router SDK

This project models the arithmetic and encoding core of the router SDK in `crates/sdk` and proves what its
code promises. Amounts are mathematical integers bounded by subset types (`u64`, `u128`, ...), so every value
a function returns comes with a proof that it fits; where the source checks, saturates or refuses, the model
does the same at the same place. Errors are result values whose constructors name the failed check.

- **Quotes.** `Arith` and `Curve` hold the rounding laws (floors and ceilings as Galois connections, the
  least input of a constant-product output). On them stand the Token-2022 fee (`TransferFee`), the LaunchLab
  curve and its graduation clamp (`LaunchLab`, and whole trading runs in `LaunchLabRuns`), Raydium CPMM with
  its exact-output search (`Cpmm`, `CpmmSearch`, `CpmmRuns`), Raydium AMM V4 (`AmmV4`), and the Pump quotes
  (`PumpFees`, `PumpFun`, `PumpV3`, `PumpV3Overflow`, `PumpSwap`). Each quote is also
  pinned on the named fields of its pool, both ways (`LaunchLabFields`, `CpmmFields`, `PumpFields`, and in
  `AmmV4` and `PumpSwap`), and `GoldenVectors` derives vectors of the repository's own tests and a few
  more worked inputs.
- **Routes.** `Keys` and `Bytes` are addresses and little-endian integers, `RouteCodec` the instruction format
  with a reference decoder, `RouteIx` the three builders, `DynamicLeg` the classifier of legs whose amount
  the router overwrites, `DynamicForms` the same legs venue by venue, `Legs` the exact-input leg builders,
  `LegSlots` the agreement of builders and classifier, `LegAccounts` what each venue finds at the indices of its
  leg and which legs are refused, `DynamicBuy` the composition of two hops.
- **Snapshots.** `SnapshotMerge` folds swap events into cached Whirlpool and CLMM pools.

An address is its 32 bytes read as a number; account derivation (associated token accounts and program
addresses) is a record of arbitrary functions, so results hold for every derivation. The two-hop results ask
only that the user's accounts for the quote token, for WSOL and for the target do not collide (`Separates`).

Six findings, each with its exact extent and a failing input proved:

- On a sold-out LaunchLab curve the clamp answers with a zero input, which cannot be quoted again; re-quoting is
  idempotent in every other case (`LaunchLab.RequoteIsIdempotent`, `GoldenVectors.SoldOutVector`).
- The three-fee PumpSwap correction can settle one unit below the largest affordable net, never more. It does so
  exactly when the guess overspends by two and its last unit raised a rounded-up fee
  (`PumpFees.CorrectedIsLargestExactly`, `PumpFees.ThreeFeeCorrectionCanFallShort`).
- A Pump V3 price past graduation, spent as a budget, always buys less than the target; one more unit of net
  suffices exactly when that budget crosses graduation, and a budget that does not cross loses its leftover
  (`PumpV3.GraduationUnderdelivers`, `PumpV3.GraduationOneMoreUnit`, `PumpV3.PlateauKeepsLeftover`,
  `GoldenVectors.UnderdeliveryVector`).
- A Pump V3 exact-output quote overflows u128 exactly beyond a fee limit on its nets. Its true price then exceeds u64,
  but a release build, whose arithmetic wraps, can quote a payable one (`PumpV3Overflow.OverflowExactly`,
  `PumpV3Overflow.BuildsAgreeExactly`, `PumpV3Overflow.ReleaseCanWrap`).
- The fixed-input route builder truncates its counts silently: its instruction is decodable exactly while they
  fit (`RouteIx.RouteInstructionDecodes`, `RouteIx.LongRouteIsMisread`).
- A route's tail names a program twice exactly when two legs share a program that the four-place buffer could not
  remember (`RouteIx.TailListsOnceExactly`, `RouteIx.RecordedExactly`, `RouteIx.UnrecordedProgramRepeats`).

## Model

| member | source | states |
|---|---|---|
| TransferFee.InverseIsExact | crates/sdk/src/transfer_fee.rs:20-41 | for every rate, cap and amount that does not overflow u64, the fee on the requested amount plus its inverse is exactly that inverse (uncapped, capped and 100% regimes) |
| TransferFee.InverseIsLeast | crates/sdk/src/transfer_fee.rs:20-41 | no smaller gross amount leaves the recipient the requested amount |
| TransferFee.NetIsMonotone | crates/sdk/src/transfer_fee.rs:20-30 | up to 100%, the recipient's credit is never negative and never falls as the gross amount grows |
| TransferFee.ChargesExactly | crates/sdk/src/transfer_fee.rs:20-30 | the fee is the basis points in ten-thousandths, rounded up, unless the maximum is smaller |
| TransferFee.InverseExactly | crates/sdk/src/transfer_fee.rs:31-41 | the inverse is the basis points of what they leave over, rounded up, unless the maximum is smaller, and the maximum itself from 100% on |
| LaunchLab.FeeCeil | crates/sdk/src/quote.rs:54-56 | the saturating fee is at most the exact rounded-up fee and the amount, and is exact whenever the product fits u128 |
| LaunchLab.PreFeeIsLeastGross | crates/sdk/src/quote.rs:106-112 | below a 100% rate, and for every curve input that fits u64, the inverse pool fee does not saturate and is the least vault input whose net reaches the curve input |
| LaunchLab.GraduationInputIsLeast | crates/sdk/src/quote.rs:168-182 | on entering the clamp none of its checks fails, and its input is at most what was offered, buys out the supply, and is the least one that does, through transfer fee, pool fee and curve |
| LaunchLab.ClampIsTight | crates/sdk/src/quote.rs:115-193 | a buy that exceeds the supply is quoted for exactly the supply at the least sufficient input; the `min` with the offer is inert; the only error left is a supply beyond u64 |
| LaunchLab.RequoteIsIdempotent | crates/sdk/src/quote.rs:115-193 | re-quoting the returned input gives the same quote if and only if the curve was not already sold out (there the clamp returns a zero input) |
| LaunchLabFields.CurveSellsExactly | crates/sdk/src/quote.rs:129-156 | on the pool's fields: what reaches the curve is the input less the quote mint's fee and less the rounded-up fee at the sum of the four rates, and the curve quotes its rounded-down share of the unsold base |
| LaunchLabFields.BuyExactly | crates/sdk/src/quote.rs:115-193 | on the pool's fields, both ways: a buy succeeds with a quote if and only if it settles for what the curve quotes or for the supply left, at the least input that buys it out, less the base mint's fee |
| LaunchLabFields.BuyConserves | crates/sdk/src/quote.rs:187-192 | what the user receives and the base mint's fee add up to what leaves the curve |
| LaunchLabFields.CurveBuysBackExactly | crates/sdk/src/quote.rs:210-242 | on the pool's fields: a sell's credit is the base less its mint's fee, priced against the unsold base and the whole quote, up to the real quote |
| LaunchLabFields.SellExactly | crates/sdk/src/quote.rs:200-249 | on the pool's fields, both ways: a sell succeeds with an amount if and only if that gross output pays it after the pool's three rates and the quote mint's fee |
| LaunchLabRuns.BuyMoves | crates/sdk/src/quote.rs:135-184 | a quoted buy moves the reserves by the gross output and by what reaches the curve of the returned input |
| LaunchLabRuns.SellMoves | crates/sdk/src/quote.rs:210-242 | a quoted sell moves the reserves by the credited base and by the gross output |
| LaunchLabRuns.StepKeepsProduct | crates/sdk/src/quote.rs:139-185 | no quoted trade lowers the product of total quote and unsold base, over-sells the cap, or changes anything but the real reserves |
| LaunchLabRuns.RunKeepsProduct | crates/sdk/src/quote.rs:139-242 | the same over every sequence of buys and sells, refused ones included |
| LaunchLabRuns.SellIsAlwaysCovered | crates/sdk/src/quote.rs:215-242 | after any run from an empty curve, no sell is refused by the real-quote check of line 240 |
| LaunchLabRuns.UnfundedCurveRefusesSell | crates/sdk/src/quote.rs:238-242 | the empty start is needed: a curve that lost its real quote refuses to buy back base it sold |
| LaunchLabRuns.RoundTripNeverProfits | crates/sdk/src/quote.rs:115-249 | selling back what a buy delivered never returns more than the buy took, clamped or not |
| LaunchLabRuns.SellConserves | crates/sdk/src/quote.rs:234-249 | the curve's gross output is exactly what the user receives plus the transfer fee plus the pool fee |
| Cpmm.OutIsMonotone | crates/sdk/src/quote.rs:535-598 | a smaller positive input quotes whenever a larger one does, and receives no more, in every fee mode |
| Cpmm.QuoteShrinks | crates/sdk/src/quote.rs:570-597 | received <= vault debit <= curve output < output reserve, and curve input <= vault credit <= input |
| Cpmm.QuoteConserves | crates/sdk/src/quote.rs:522-532 | every unit of the input and of the curve output is accounted for, and the creator fee is taken on exactly the side its mode names |
| CpmmFields.BaseInExactly | crates/sdk/src/quote.rs:535-598 | on the pool's fields, both ways: when a base-in quote succeeds, and with which credit, curve input, output, debit and received amount |
| CpmmFields.QuoteInExactly | crates/sdk/src/quote.rs:535-598 | the same for quote in, with reserves, transfer fees and the creator fee's side exchanged |
| CpmmSearch.LargestInputWithin | crates/sdk/src/quote.rs:626-641 | the capacity search terminates with exactly the largest gross input whose vault credit fits |
| CpmmSearch.QuotesWithinCapacity | crates/sdk/src/quote.rs:618-628 | once one unit quotes, an input quotes if and only if its credit fits the vault |
| CpmmSearch.NaiveIsLowerBound | crates/sdk/src/quote.rs:645-650 | the feeless inverse bounds every sufficient input from below |
| CpmmSearch.Widen | crates/sdk/src/quote.rs:651-654 | the doubling loop terminates at an input that reaches the target, within capacity |
| CpmmSearch.Bisect | crates/sdk/src/quote.rs:655-662 | the bisection ends at the least input that reaches the target |
| CpmmSearch.InForOut | crates/sdk/src/quote.rs:601-664 | a positive target succeeds if and only if some u64 input delivers it on the pool's fields, in that direction, and the result is the least such input |
| CpmmRuns.SwapKeepsProduct | crates/sdk/src/quote.rs:546-598 | a swap never lowers the reserve product and never empties a reserve, however the collected fees are counted |
| CpmmRuns.RunKeepsProduct | crates/sdk/src/quote.rs:546-598 | the product never falls over any run of swaps in either direction |
| CpmmRuns.RoundTripNeverProfits | crates/sdk/src/quote.rs:546-598 | swapping the received amount straight back never returns more than the vault was credited |
| AmmV4.ReachesFromClosedForm | crates/sdk/src/quote.rs:791-819 | an input that quotes reaches a target if and only if it is at least the closed-form input |
| AmmV4.OutExactly | crates/sdk/src/quote.rs:791-819 | on the pool's fields, both ways and for each direction: when a quote succeeds, and with what output |
| AmmV4.InForOutIsLeastAndComplete | crates/sdk/src/quote.rs:822-862 | the inverse succeeds if and only if some input delivers the target on the pool's fields within vault capacity, its result is the least such input, and its last check (858-860) is dead |
| PumpFees.SplitFeeIsCeil | crates/sdk/src/quote.rs:60-75 | the split fee is the plain rounded-up fee capped at the u128 maximum, except exactly when the remainder's product overflows |
| PumpFees.GuessBounds | crates/sdk/src/quote.rs:694-698 | the first guess bounds every affordable net from above, and overspends by at most one unit with two fees and two with three |
| PumpFees.TwoFeeCorrectionIsLargest | crates/sdk/src/quote.rs:694-701 | with two fees, a net is affordable if and only if it is at most the corrected net |
| PumpFees.CorrectedIsNearlyLargest | crates/sdk/src/quote.rs:742-754 | with three fees the corrected net is affordable and at most one unit below the largest affordable net |
| PumpFees.CorrectedIsLargestExactly | crates/sdk/src/quote.rs:742-754 | it is the largest affordable net if and only if the guess does not overspend by two with a last unit that raised some rounded-up fee; otherwise the largest is one unit more |
| PumpFees.ThreeFeeCorrectionCanFallShort | crates/sdk/src/quote.rs:742-754 | that unit is really lost for some budget and rates |
| PumpFun.NetQuoteIsLargest | crates/sdk/src/pumpfun_v3.rs:516-521 | `net_quote` never fails and is exactly the largest net whose fees the budget covers |
| PumpFun.V1BuyTokenOut | crates/sdk/src/quote.rs:689-709 | the in-place V1 correction with split fees equals the quote defined by the largest affordable net |
| PumpFields.RatesExactly | crates/sdk/src/pumpfun_v3.rs:94-106 | the rates charged are the protocol's and, only with a creator, the creator's; they succeed if and only if known and below 100% together, and for V3 on an open, valid, non-cashback pool |
| PumpFields.LargestNetExactly | crates/sdk/src/pumpfun_v3.rs:513-521 | on those fields, the net is the largest input that with its two rounded-up fees fits the budget |
| PumpFields.V1Exactly | crates/sdk/src/quote.rs:689-709 | on the curve's fields, both ways: when V1 succeeds, and with how many tokens |
| PumpFields.V3Exactly | crates/sdk/src/pumpfun_v3.rs:110-163 | on the pool's fields, both ways: when V3 succeeds, and with how many tokens, on the curve and across graduation |
| PumpFields.QuoteForTokensExactly | crates/sdk/src/pumpfun_v3.rs:166-206 | on the pool's fields, both ways: when a target is priced, and at what total |
| PumpFun.CurveNetBrackets | crates/sdk/src/pumpfun_v3.rs:137-138 | the floor-plus-one net buys at most the target, and any larger net buys at least it |
| PumpFun.CrossingConservesBudget | crates/sdk/src/pumpfun_v3.rs:133-161 | past the curve, completing it costs less than the budget, and that cost plus the pool leg's cost, each with both fees, is at most the budget |
| PumpV3.CurveQuote | crates/sdk/src/pumpfun_v3.rs:118-126 | an uncrossed quote is the curve's output for the largest affordable net at the charged rates, within the supply |
| PumpV3.CrossQuote | crates/sdk/src/pumpfun_v3.rs:133-162 | a crossed quote is the whole supply, plus what the pool-to-be sells for the largest affordable net of what is left |
| PumpV3.DeadErrors | crates/sdk/src/pumpfun_v3.rs:133-140 | the exhausted-reserve error of the crossing and the fee-cover error are unreachable for every snapshot and budget |
| PumpV3Overflow.BuyQuoteNeverOverflows | crates/sdk/src/pumpfun_v3.rs:110-163 | for every snapshot and budget, crossing or not, no product or sum of the exact-input quote overflows u128, those of both `net_quote` calls included |
| PumpV3.V1RefinesV3 | crates/sdk/src/pumpfun_v3.rs:110-126 | on a valid V3 pool V1 quotes V3 capped by the supply; within the supply they agree on success and value |
| PumpV3.BuyQuoteIsMonotone | crates/sdk/src/pumpfun_v3.rs:116-163 | among budgets that quote, a larger one never buys less, across curve, plateau and pool-to-be |
| PumpV3Overflow.OverflowExactly | crates/sdk/src/pumpfun_v3.rs:166-206 | an exact-output quote overflows u128 if and only if one of its two nets exceeds the fee limit of its rates, or their totals together exceed u128 |
| PumpV3Overflow.FeesFitUpToLimit | crates/sdk/src/pumpfun_v3.rs:513-515 | the fees and total of a net fit u128 if and only if the net is at most that limit |
| PumpV3Overflow.PricesFit | crates/sdk/src/pumpfun_v3.rs:178-204 | apart from the fees nothing in an exact-output quote overflows u128 |
| PumpV3Overflow.OverflowOnlyBeyondU64 | crates/sdk/src/pumpfun_v3.rs:183-205 | an overflow means that the true price exceeds u64 |
| PumpV3Overflow.BuildsAgreeExactly | crates/sdk/src/pumpfun_v3.rs:166-206 | the wrapping release build answers as the checked one if and only if nothing overflows |
| PumpV3Overflow.ReleaseCanWrap | crates/sdk/src/pumpfun_v3.rs:183-187 | for some pool the release build quotes a payable price for a target whose true price is not payable |
| PumpV3.CurveSandwich | crates/sdk/src/pumpfun_v3.rs:166-187 | on the curve, spending the quoted price buys at most the target, and exactly it if and only if the price divides evenly |
| PumpV3.CurveOneMoreUnit | crates/sdk/src/pumpfun_v3.rs:118-126 | on the curve, one more unit of net than the quoted price always buys at least the target |
| PumpV3.GraduationUnderdelivers | crates/sdk/src/pumpfun_v3.rs:191-205 | past the curve, spending the quoted price always buys strictly less than the target |
| PumpV3.GraduationOneMoreUnit | crates/sdk/src/pumpfun_v3.rs:137-162 | a budget for one more unit of pool-to-be net delivers the target if and only if the budget crosses |
| PumpV3.PlateauKeepsLeftover | crates/sdk/src/pumpfun_v3.rs:122-126 | some pool and budget: above the price of a target past the curve, yet not crossing, and quoting the curve's supply only |
| PumpSwap.BuyBaseOut | crates/sdk/src/quote.rs:735-762 | the in-place three-fee correction equals the quote defined by the corrected net; no intermediate value overflows |
| PumpSwap.BuyNeverOverspends | crates/sdk/src/quote.rs:735-762 | all but one unit of the net enters the curve; the net plus its three ceiled fees is at most the input, at most one unit more was affordable, and none if and only if the correction does not fall short |
| PumpSwap.BuyExactly | crates/sdk/src/quote.rs:725-762 | on the pool's fields, both ways: when a buy succeeds, and with how much base, against the real and virtual quote together |
| GoldenVectors.ClampVector | crates/sdk/src/offline_tests.rs:3190-3199 | the model clamps the test vector of the curve as the repository's test states, so the clamp's premises are met |
| GoldenVectors.SoldOutVector | crates/sdk/src/quote.rs:161-183 | a sold-out curve enters the clamp, is quoted a zero input for nothing, and refuses to quote that input again |
| GoldenVectors.CrossingVector | crates/sdk/src/pumpfun_v3.rs:568-584 | the model crosses graduation with the test vectors' token amounts, for both kinds of quote mint |
| GoldenVectors.PriceVector | crates/sdk/src/pumpfun_v3.rs:599-603 | the model prices the test vector past graduation as the test states |
| GoldenVectors.UnderdeliveryVector | crates/sdk/src/pumpfun_v3.rs:110-206 | spending that price crosses and buys 149998 of the 150000 tokens |
| GoldenVectors.RatedVector | crates/sdk/src/pumpfun_v3.rs:586-591 | with the test's two fee rates both versions buy 90073 tokens |
| GoldenVectors.PumpSwapVector | crates/sdk/src/quote.rs:456-482 | the model buys the test's amount of base |
| GoldenVectors.CpmmVector | crates/sdk/src/quote.rs:330-357 | the model rounds the trade and creator fees of the test together |
| GoldenVectors.BuyFeeVector | crates/sdk/src/quote.rs:187-192 | a base mint's transfer fee comes off a buy of 100 |
| GoldenVectors.SellVector | crates/sdk/src/quote.rs:220-237 | a sell of 50 is priced against the unsold base at 52 |
| RouteCodec.DecodesBack | crates/sdk/src/mainnet_sim.rs:169-185 | decoding an encoded route, for all three header shapes and any tail, gives the route back if and only if its counts fit their u8 and u16 fields |
| RouteCodec.EncodingIsInjective | crates/sdk/src/route_ix.rs:184-246 | fitting routes with the same bytes and metas are the same route, with the same fixed accounts and tail |
| RouteCodec.HeadFields | crates/sdk/src/route_ix.rs:201-207 | tag, amounts, fee asset, leg count and mint stand at their bytes of the header |
| RouteCodec.LegFields | crates/sdk/src/route_ix.rs:218-224 | program, account count, data length and data stand at their bytes of a leg |
| RouteCodec.FloorsInOrder | crates/sdk/src/route_ix.rs:434-441 | the floors follow in order, eight bytes each |
| RouteCodec.LegsInOrder | crates/sdk/src/route_ix.rs:218-224 | legs and their accounts follow each other in order |
| RouteIx.AppendLegs | crates/sdk/src/route_ix.rs:218-224 | the loop appends every leg's bytes and accounts in order |
| RouteIx.AppendPrograms | crates/sdk/src/route_ix.rs:226-238 | the loop over the bounded `seen` buffer appends the program tail |
| RouteIx.BuildRouteInstructionEx | crates/sdk/src/route_ix.rs:184-246 | the built bytes and metas are the encoded route and its account layout |
| RouteIx.BuildDynamicRouteInstruction | crates/sdk/src/route_ix.rs:256-340 | the checks, in order, and the built tag-5 instruction |
| RouteIx.BuildThreeHopRouteInstruction | crates/sdk/src/route_ix.rs:352-477 | the checks, in order, and the built tag-6 instruction, or the tag-2 one in fixed-input mode |
| RouteIx.RouteInstructionDecodes | crates/sdk/src/route_ix.rs:201-224 | the fixed-input instruction reads back as a tag-2 route of the given amounts, fee asset with its exact-output flag, mint and legs, if and only if all counts fit, which the builder does not check |
| RouteIx.LongRouteIsMisread | crates/sdk/src/route_ix.rs:206-222 | a built route of 256 legs does not decode back |
| RouteIx.DynamicInstructionDecodes | crates/sdk/src/route_ix.rs:303-340 | an accepted two-leg instruction reads back as a tag-5 route of the given amounts, floor, mint and legs, after its fixed accounts |
| RouteIx.DynamicAcceptsExactly | crates/sdk/src/route_ix.rs:265-301 | which two-leg routes are accepted, both ways, on amounts, accounts and the swap that the second leg makes |
| RouteIx.ThreeHopInstructionDecodes | crates/sdk/src/route_ix.rs:431-477 | an accepted three-hop instruction reads back as a tag-6 route of the given amounts, floors, mint and legs, after its fixed accounts |
| RouteIx.ThreeHopAcceptsExactly | crates/sdk/src/route_ix.rs:378-429 | which dynamic three-hop routes are accepted, both ways, with later legs that swap a placeholder of nothing |
| RouteIx.ThreeHopFixedInput | crates/sdk/src/route_ix.rs:352-377 | without spending actual outputs, a three-hop route is the fixed-input instruction over exactly three legs |
| RouteIx.ThreeHopChains | crates/sdk/src/route_ix.rs:378-429 | its first leg writes the first intermediate only, and after any amounts are written its later legs still spend the intermediates in order |
| RouteIx.FixedAccountsReadBack | crates/sdk/src/route_ix.rs:443-452 | the six, seven or eight fixed accounts stand in order; the payer alone signs, and all but the configuration and fee program are writable |
| RouteIx.TailHasEveryProgram | crates/sdk/src/route_ix.rs:226-238 | the tail lists read-only metas of exactly the legs' programs, for any buffer size |
| RouteIx.TailListsOnceExactly | crates/sdk/src/route_ix.rs:226-238 | the tail names each program once if and only if every program that two legs share is remembered by the buffer |
| RouteIx.RecordedExactly | crates/sdk/src/route_ix.rs:226-238 | the buffer remembers a program if and only if some leg uses it before as many distinct programs as the buffer holds |
| RouteIx.TailListsProgramsOnce | crates/sdk/src/route_ix.rs:461-470 | so while the distinct programs fit the buffer, as those of two and three dynamic legs always do, the tail names each once |
| RouteIx.RouteListsPrograms | crates/sdk/src/route_ix.rs:226-240 | a fixed-input instruction lists each leg program once after the legs' accounts while they are at most four |
| RouteIx.ThreeHopListsPrograms | crates/sdk/src/route_ix.rs:461-471 | a dynamic three-hop instruction always does |
| RouteIx.UnrecordedProgramRepeats | crates/sdk/src/route_ix.rs:226-238 | a built route through four other programs and twice through a fifth lists the fifth twice |
| RouteIx.FeeMintMovesNothing | crates/sdk/src/route_ix.rs:479-485 | the fee mint is appended, read-only and last, exactly for a Token-2022 fee whose mint no other account is, and nothing else moves |
| DynamicForms.MatchesExactly | crates/sdk/src/route_ix.rs:35-146 | the router takes exactly the nine venues' exact-input swaps, each by its bytes, its tail, who signs and where the two writable accounts stand; a placeholder is asked to be zero |
| DynamicLeg.LayoutInBounds | crates/sdk/src/route_ix.rs:44-118 | every layout has its amount window and its three different slots in bounds |
| DynamicLeg.OverwriteKeepsLayout | crates/sdk/src/route_ix.rs:44-118 | writing any amount into the window leaves the classification unchanged |
| DynamicLeg.OverwriteKeepsMatch | crates/sdk/src/route_ix.rs:121-146 | a validated leg is still valid after any amount is written into it |
| Legs.FillHead | crates/sdk/src/legs.rs:72-78 | the zeroed buffer is filled with discriminator and two little-endian amounts, in place |
| Legs.PumpSwapAccounts | crates/sdk/src/legs.rs:483-559 | the pushed accounts are the specified list for every combination of the optional ones, and the account budget is never exceeded |
| Legs.BuildPumpSwapBuyLeg | crates/sdk/src/legs.rs:561-578 | the buffer and accounts make the specified leg |
| Legs.FillAmmV4Data | crates/sdk/src/legs.rs:640-647 | the buffer holds tag, input and floor |
| Legs.FillDammData | crates/sdk/src/legs.rs:751-755 | the buffer holds discriminator, amounts and mode |
| Legs.SplitBitmap | crates/sdk/src/legs.rs:809-817 | the loop removes every copy of the bitmap PDA and remembers whether it was supplied |
| Legs.FillClmmData | crates/sdk/src/legs.rs:849-854 | the buffer holds discriminator, amounts, limit price and the exact-in flag |
| Legs.BuildClmmSwapLeg | crates/sdk/src/legs.rs:796-881 | the checks, in order, and the specified leg |
| Legs.PushWhirlpoolData | crates/sdk/src/legs.rs:917-934 | the pushed bytes carry the flags and the optional count of supplemental tick arrays |
| Legs.FillDlmmData | crates/sdk/src/legs.rs:1002-1006 | the buffer holds discriminator, amounts and four zero bytes |
| LegSlots.LaunchLabSpends | crates/sdk/src/legs.rs:80-116 | every built leg is accepted by the classifier, with user, input and output accounts in the classified slots and input and floor at the classified window |
| LegSlots.CpmmSpends | crates/sdk/src/legs.rs:155-212 | the same, in both directions |
| LegSlots.PumpSwapBuySpends | crates/sdk/src/legs.rs:561-578 | the same, for every combination of optional accounts |
| LegSlots.PumpSwapSellSpends | crates/sdk/src/legs.rs:599-611 | the same, for every combination of optional accounts |
| LegSlots.AmmV4Spends | crates/sdk/src/legs.rs:613-663 | the same, in both directions |
| LegSlots.DammSpends | crates/sdk/src/legs.rs:716-794 | the same; a built leg is classified if and only if the pool is in exact-input mode |
| LegSlots.ClmmSpends | crates/sdk/src/legs.rs:796-881 | the same, for every tick-array list the builder admits |
| LegSlots.WhirlpoolSpends | crates/sdk/src/legs.rs:883-966 | the same, for three to six tick arrays, in both directions |
| LegSlots.DlmmSpends | crates/sdk/src/legs.rs:968-1043 | the same, for every bin-array list the builder admits |
| LegSlots.OverwrittenSpends | crates/sdk/src/route_ix.rs:121-146 | after any amount is written, the leg spends exactly that amount under the same floor |
| LegSlots.ShortLegIsRefused | crates/sdk/src/route_ix.rs:121-146 | a leg cut short is refused if and only if it has fewer accounts than its venue requires |
| LegSlots.CpmmReversal | crates/sdk/src/legs.rs:155-212 | each side names its own vault, program and mint, and the reversed swap exchanges exactly those and the user accounts; with equal mints it exchanges the user accounts alone |
| LegSlots.ClmmReversal | crates/sdk/src/legs.rs:822-870 | mint 0 pays into its own vault, and the reversed swap exchanges exactly user accounts, vaults, mints and the limit price; with equal mints it is the same swap |
| LegSlots.WithoutDrops | crates/sdk/src/legs.rs:810-817 | removing the bitmap PDA drops all its copies and keeps every other array as often as it stood |
| LegSlots.ClmmBitmapIsNormalised | crates/sdk/src/legs.rs:805-821 | a built leg holds the bitmap PDA once, at index 13, when it was supplied either way, and nowhere otherwise; the other arrays follow in order, within 64 accounts |
| LegAccounts.ClmmLimitOnWire | crates/sdk/src/legs.rs:844-853 | a CLMM leg's price limit is one step inside the range's end in its direction |
| LegAccounts.WhirlpoolLimitOnWire | crates/sdk/src/legs.rs:912-922 | a Whirlpool leg's price limit is the range's end in its direction |
| LegAccounts.ClmmBuildsExactly | crates/sdk/src/legs.rs:796-841 | which pools and input mints a CLMM leg is built for, both ways |
| LegAccounts.WhirlpoolBuildsExactly | crates/sdk/src/legs.rs:883-911 | the same for Whirlpool |
| LegAccounts.DlmmBuildsExactly | crates/sdk/src/legs.rs:968-1043 | the same for DLMM |
| LegAccounts.DammBuildsExactly | crates/sdk/src/legs.rs:716-750 | the same for DAMM |
| LegAccounts.AmmV4BuildsExactly | crates/sdk/src/legs.rs:613-640 | the same for AMM V4 |
| LegAccounts.CpmmBuildsExactly | crates/sdk/src/legs.rs:155-212 | the same for CPMM |
| LegAccounts.PumpSwapBuildsExactly | crates/sdk/src/legs.rs:483-559 | the same for PumpSwap |
| DynamicBuy.FirstHopSpends | crates/sdk/src/dynamic.rs:119-266 | a first hop on any of the seven venues spends the given WSOL into the account of the token it reports |
| DynamicBuy.SecondHopSpends | crates/sdk/src/dynamic.rs:268-323 | a second hop spends the quote token, under the program the first hop delivers it in, into the target |
| DynamicBuy.FirstHopTrades | crates/sdk/src/dynamic.rs:119-266 | a first hop's pool pairs classic WSOL with the token the hop reports |
| DynamicBuy.SecondHopTrades | crates/sdk/src/dynamic.rs:268-323 | a second hop's pool pairs the quote token with the one the hop reports, but for CPMM pools of one mint |
| DynamicBuy.FirstHopBuildsExactly | crates/sdk/src/dynamic.rs:119-266 | which pools give a first hop, both ways |
| DynamicBuy.SecondHopBuildsExactly | crates/sdk/src/dynamic.rs:268-323 | which pools give a second hop, both ways |
| DynamicBuy.ChainedHopsJoin | crates/sdk/src/dynamic.rs:58-92 | the route builder accepts two chained hops if and only if amounts are positive, the target is not native SOL and the quote token is neither WSOL nor the target |
| DynamicBuy.TwoHopBuildsExactly | crates/sdk/src/dynamic.rs:38-92 | so, within the budget and once both hops build, the whole builder succeeds if and only if those conditions hold |
| DynamicBuy.TwoHopChains | crates/sdk/src/dynamic.rs:38-92 | the built instruction names the fee recipient's and the payer's accounts and reads back as a tag-5 route of the requested amounts over two hops, where the first's output account is the second's input, also after any received amount is written in |
| SnapshotMerge.WhirlpoolPool.MergeSwap | crates/sdk/src/parser.rs:443-476 | the in-place merge turns the snapshot into the specified overlay |
| SnapshotMerge.WhirlpoolPool.MergeAddresses | crates/sdk/src/parser.rs:451-468 | each address is replaced exactly when the event carries one |
| SnapshotMerge.MergeSetsPart | crates/sdk/src/parser.rs:443-476 | one merge sets a part to what a same-pool event says of it, or keeps it |
| SnapshotMerge.LastWordWins | crates/sdk/src/parser.rs:443-476 | after any event sequence each address, the tick-array triplet and the quoted amount are what the last same-pool event to state them said, else the initial ones |
| SnapshotMerge.QuoteIsInvalidated | crates/sdk/src/parser.rs:443-476 | a run with a same-pool event leaves no cached output or quoted mint; a run without one changes nothing |
| SnapshotMerge.ClmmPool.MergeSwap | crates/sdk/src/parser.rs:480-508 | the in-place CLMM merge turns the snapshot into the specified overlay |
| SnapshotMerge.ClmmLastWordWins | crates/sdk/src/parser.rs:480-508 | the same last-statement law for the CLMM parts |
| SnapshotMerge.ClmmQuoteIsInvalidated | crates/sdk/src/parser.rs:480-508 | the same invalidation law for CLMM |

## Left out

- Network, submission and account loading (`crates/sdk/src/client.rs`, RPC, caches), the administration
  instructions and the on-chain executor: `instructions/route.rs` is not part of this model.
- PumpV3.CurveQuote: the account identity checks of `validate` (`crates/sdk/src/pumpfun_v3.rs:70-90`) are one flag.
- PumpV3.CurveSandwich: this and the other results on exact-output quotes assume a quote that did not overflow u128;
  `PumpV3Overflow.OverflowExactly` says which do.
- Legs.PumpSwapAccounts: the external account validation is one flag of the snapshot, and the two address searches
  that can fail are optional values.
- Legs.FillHead: the builders that only list accounts (LaunchLab, CPMM, AMM V4, DAMM, Whirlpool, DLMM, the PumpSwap
  sell) are functions giving the whole leg; the methods fill their buffers, so the step from buffer to leg is not a
  method there.
- Error texts: an error is modelled by which check failed, not by its message.
- The exact-output leg builders, the LaunchLab sell leg and the Pump V1, V2 and V3 legs, routes and setup: straight-line account
  lists outside the classifier's nine shapes.
- Pump and PumpSwap sell quotes, slippage and router-fee helpers: one rounding each, covered by the laws in `Curve`.
- Venues that echo a cached expected output (CLMM, Whirlpool, DLMM, DAMM quotes): no arithmetic.
- `build_deployed_dynamic_quote_buy` (`crates/sdk/src/dynamic.rs:96-118`): it only fills in the deployed program's address.
- Conversions from single events to fresh pools (`crates/sdk/src/parser.rs:38-435`): field copies.
