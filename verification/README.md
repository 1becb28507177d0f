# Verified model of the batchit escrow

batchit pools SOL from contributors, spends the pool in one buy on a pump.fun bonding curve, burns the tokens above
cost basis and lets contributors claim the rest pro rata; if the buy does not happen in time, everybody is refunded.
This project states what the escrow program, its arithmetic and its launch orchestrator promise, and proves it.

- `Instructions.dfy` gives the nine instructions as functions on the state of one pool (account, contribution records,
  lamports, tokens, event log), and runs as sequences of transactions with any signer, arguments, clock and pump outcome.
- `EscrowProgram.dfy` is the program in its own form: an object whose handlers check and write in the order of the
  Rust source, and a transaction wrapper that reverts what a failed handler wrote. It refines `Instructions.dfy`.
- `Invariants.dfy` is the inductive invariant; `Guards.dfy`, `Failures.dfy`, `Effects.dfy`, `FinalPrice.dfy`,
  `Refunds.dfy`, `Claims.dfy`, `Settlement.dfy`, `Lifecycle.dfy` and `EventLog.dfy` are the promises. `Reachable(c)`
  means: some run from an uncreated pool ends in `c`.
- `Recovery.dfy` joins pool, bonding curves and orchestrator; `BurnMath.dfy` is the arithmetic with its TypeScript
  mirror; `PoolLayout.dfy`, `CurveReserves.dfy` and `Bytes.dfy` are account bytes; the rest is groundwork.

`dafny verify dfyconfig.toml` checks everything.

Assumptions: a pool address is created once, and no contribution records exist before; there is one token vault per
pool, and callers pass the accounts the program's address constraints ask for (there is none on the curve accounts of
`complete_buy` and `finalize`, so those are arguments); nobody signs with the default public key; all lamports together
fit 64 bits; the pump program, when called, takes at most the lamports offered and gives at least the tokens asked for,
or fails; in the joint system it refuses every account but the mint's own curve and never empties that one; others can
add lamports and tokens to the pool's accounts but not remove them; times are whole seconds that JavaScript numbers
represent exactly.

Where documents and code differ, the code is modelled. The plan draws an edge from Finalized to Closed
(`docs/plans/phase-1-escrow.md:118-123`); the code never takes it. The plan has a status Closed; the code never assigns
it, it deletes the account. The trust page says that the orchestrator cannot change allocations
(`docs/trust/escrow-actors.md:25`) and `finalize` means to split at the curve's live price
(`programs/batchit/src/instructions/finalize.rs:8-14`); the code reads the price from whatever account the caller
passes, so the split and the reserves recorded with it are the curve's exactly when the data passed agrees with the
mint's curve in bytes 8 to 24 (`FinalPrice.PricedAtCurveIff`, `FinalPrice.SplitIsCallersChoice`), while the proportions
between contributors do stay fixed (`Lifecycle.BoughtForGood`). It also says that the orchestrator cannot redirect SOL;
it leaves the pool in three ways only (`Lifecycle.PoolOutflow`), but which mint the escrow buys, and on what terms, is
up to whoever launches first (`FinalPrice.MintIsCallersChoice`). The mirror in `burn.ts` is said to equal `math.rs`; it
does only under the condition proved here.

## Model

| member | source | states |
|---|---|---|
| `EscrowProgram.Escrow.CreatePoolHandler` | programs/batchit/src/instructions/create_pool.rs:6-65 | Top-up, parameter checks and field writes in the source's order commit exactly `CreatePoolTx` or fail with the same error |
| `EscrowProgram.Escrow.ContributeHandler` | programs/batchit/src/instructions/contribute.rs:7-75 | Commits exactly `ContributeTx` (blank record, transfer, init branch, counters, record) or fails with the same error |
| `EscrowProgram.Escrow.CreditRecord` | programs/batchit/src/instructions/contribute.rs:38-65 | The init-if-needed branch: which record and contributor count result, or which check fails |
| `EscrowProgram.Escrow.BeginLaunchHandler` | programs/batchit/src/instructions/begin_launch.rs:7-30 | Commits exactly `BeginLaunchTx` or fails with the same error |
| `EscrowProgram.Escrow.CompleteBuyHandler` | programs/batchit/src/instructions/complete_buy.rs:12-127 | Commits exactly `CompleteBuyTx`, with the pump program as an oracle, or fails with the same error after having moved lamports |
| `EscrowProgram.Escrow.FinalizeHandler` | programs/batchit/src/instructions/finalize.rs:9-70 | Commits exactly `FinalizeTx` (live reserves or snapshot, burn, split) or fails with the same error |
| `EscrowProgram.Escrow.ClaimHandler` | programs/batchit/src/instructions/claim.rs:8-59 | Commits exactly `ClaimTx` or fails with the same error |
| `EscrowProgram.Escrow.RefundHandler` | programs/batchit/src/instructions/refund.rs:8-75 | Commits exactly `RefundTx`; it writes the status and the record before its last checks, so a failure leaves dirty accounts behind |
| `EscrowProgram.Escrow.MarkRefundableHandler` | programs/batchit/src/instructions/mark_refundable.rs:7-18 | Commits exactly `MarkRefundableTx` or fails with the same error |
| `EscrowProgram.Escrow.ClosePoolHandler` | programs/batchit/src/instructions/close_pool.rs:6-33 | The account constraints, the guard and the close: commits exactly `ClosePoolTx` or fails with the same error |
| `EscrowProgram.Escrow.Execute` | programs/batchit/src/lib.rs:25-77 | One transaction is atomic: the state afterwards is the specified one or the one before, whatever the handler had written |
| `EscrowProgram.Escrow.ExecuteAll` | programs/batchit/src/lib.rs:25-77 | Any sequence of transactions leaves the object in the state `Run` gives, so all statements about runs are about the object |
| `Invariants.StepKeeps` | programs/batchit/src/lib.rs:25-77 | Every instruction by any signer at any clock keeps the invariant relating terms, records, totals, status, split, custody and log |
| `Invariants.ReachableKeeps` | programs/batchit/src/lib.rs:3-4 | That invariant holds in every state reachable from an uncreated pool |
| `Invariants.ClaimEffect` | programs/batchit/src/instructions/claim.rs:12-57 | A successful claim pays the exact floor share although the code truncates to 64 bits, and changes nothing else |
| `Invariants.ContributeEffect` | programs/batchit/src/instructions/contribute.rs:13-73 | A successful deposit, first or repeated, adds the amount to one live record, the total and the pool balance, before `launch_at`; the record keeps the bump of its creation |
| `Invariants.FinalizeEffect` | programs/batchit/src/instructions/finalize.rs:29-57 | A successful finalize leaves claimable plus burned equal to the tokens bought, and burns from the vault what it records |
| `Guards.ContributeIff` | programs/batchit/src/instructions/contribute.rs:8-65 | In reachable states, exactly when a deposit succeeds; the flags, the identity checks and the overflow checks never decide |
| `Guards.BeginLaunchIff` | programs/batchit/src/instructions/begin_launch.rs:9-19 | In reachable states, exactly when a launch begins; `MintAlreadySet` never fires |
| `Guards.BuyIff` | programs/batchit/src/instructions/complete_buy.rs:16-101 | In reachable states, exactly when `complete_buy` succeeds: already bought, or launching in time with the right mint, a landed curve and a pump that leaves at least one and at least `min_tokens_out` tokens more in the vault; the zero and lamport checks never fire |
| `Guards.BuySnapshots` | programs/batchit/src/instructions/complete_buy.rs:56-116 | The buy records the vault's gain and the reserves encoded in the curve account; lamports only change hands |
| `Guards.FinalizeIff` | programs/batchit/src/instructions/finalize.rs:11-50 | In reachable states, finalize succeeds exactly when the pool is bought and the price, read little-endian at bytes 8 and 16 or else kept from the buy, is positive; the split's errors and the burn never fail |
| `Guards.FinalizeAtPrice` | programs/batchit/src/instructions/finalize.rs:15-57 | Handed any account data that holds given reserves, finalize stores those virtual reserves, token and quote each in its place, and splits at them |
| `Guards.RefundIff` | programs/batchit/src/instructions/refund.rs:12-67 | In reachable states, a refund succeeds exactly when refunds are allowed and the signer has an unrefunded record; the counters and balances never underflow or overflow |
| `Guards.ClaimIff` | programs/batchit/src/instructions/claim.rs:9-50 | In reachable states, a claim succeeds exactly when the pool is finalized, the record unclaimed and the share positive (or nothing is distributed at all) |
| `Guards.CloseIff` | programs/batchit/src/instructions/close_pool.rs:6-33 | In reachable states, a close succeeds exactly for the creator of a refundable pool all of whose records are refunded; the Finalized arm is never taken |
| `Failures.FailureExplained` | programs/batchit/src/lib.rs:25-77 | In every reachable state each of the nine instructions succeeds, or fails with one error, exactly as a reference without the checks that never fire says: first unmet condition, its error |
| `Effects.CreateEffect` | programs/batchit/src/instructions/create_pool.rs:28-52 | A new pool has the terms, bumps and creator asked for and all else zero; its account is rent exempt at the creator's cost, and nothing else changes |
| `Effects.CreatedAsAsked` | programs/batchit/src/instructions/create_pool.rs:28-43 | After any further run the pool still has exactly those terms, the launch window as long as the grace asked for |
| `Effects.LaunchEffect` | programs/batchit/src/instructions/begin_launch.rs:21-28 | The launch commits exactly the mint handed in, tells the total with it, and touches no other field |
| `Effects.MarkEffect` | programs/batchit/src/instructions/mark_refundable.rs:15-16 | Marking changes the status, tells it, and touches no other field |
| `Effects.BuyEffect` | programs/batchit/src/instructions/complete_buy.rs:38-116 | Where everything goes in a buy: escrow, change and payment, the vault's gain, the curve's reserves (zeros if unreadable), and nothing else is touched |
| `Effects.RefundFrame` | programs/batchit/src/instructions/refund.rs:34-67 | A refund touches one record, one wallet, the two totals and the status, and nothing else |
| `Effects.CloseSweeps` | programs/batchit/src/instructions/close_pool.rs:24-31 | The close empties the account to the last lamport into the creator's wallet and touches nothing else |
| `Effects.RefundAndCloseEmptiesAccount` | programs/batchit/src/instructions/close_pool.rs:5-33 | After everybody's refund, in any order, the close succeeds and pays the creator exactly what the account held beyond the contributions |
| `FinalPrice.PricedAtCurveIff` | programs/batchit/src/instructions/finalize.rs:14-57 | The stored split and reserves are those of a given curve if and only if bytes 8 to 24 of the data handed in are the curve's or, where one of the two is too short to be read, the buy's snapshot in its place makes the prices equal |
| `FinalPrice.SplitIsCallersChoice` | programs/batchit/src/instructions/finalize.rs:101-102 | In every reachable bought pool some account data makes finalize leave `d` tokens to claim and burn the rest if and only if `d` lies between 0 and the tokens bought, so what there is to distribute is not fixed by the chain |
| `FinalPrice.FinalizeAtBuyPrice` | programs/batchit/src/instructions/finalize.rs:20-34 | With unreadable data, any time after the buy, the split is the one at the reserves in the log's one buy event, and fails only for a zero there |
| `FinalPrice.MintIsCallersChoice` | programs/batchit/src/instructions/begin_launch.rs:7-30 | From every reachable open pool with its raise met, in the launch window, any two signers can commit it to any mint and buy that one with the whole escrow, on any terms the pump accepts |
| `Refunds.EverybodyRefunded` | programs/batchit/src/instructions/refund.rs:12-67 | Once refunds are allowed, refunding everybody in any order succeeds step by step, pays each exactly their deposits, empties the pool, and the close then succeeds if and only if somebody was refunded or the pool was already refundable |
| `Refunds.EmptyPoolMustBeMarked` | programs/batchit/src/instructions/close_pool.rs:8-14 | The exception: an open pool without contributors cannot be closed until somebody marks it |
| `Refunds.OnlyRefundsLeft` | programs/batchit/src/instructions/refund.rs:12-27 | With refunds allowed and SOL still owed, no other pool instruction but refund and mark can succeed |
| `Refunds.RefundCannotBeBlocked` | docs/trust/escrow-actors.md:24-24 | After any transactions by anybody else once refunds are allowed, a contributor's refund still succeeds and pays exactly what they deposited |
| `Refunds.RefundPaysDeposits` | programs/batchit/src/instructions/refund.rs:29-67 | A refund pays the sum of the contributor's deposits, leaves the total at what the others are owed and their records alone, and cannot be repeated |
| `Refunds.PaidBackOnce` | programs/batchit/src/instructions/refund.rs:34-40 | Over any run a contributor is given back nothing or exactly the sum of their deposits |
| `Claims.SharesCoverDistributable` | programs/batchit/src/instructions/claim.rs:21-50 | `total_claimed` is the sum of the paid shares; all shares together stay within `distributable`, which the vault covers; what can never be claimed is less than one token per contributor |
| `Claims.ClaimsInAnyOrder` | programs/batchit/src/instructions/claim.rs:21-50 | Any selection of due claims in any order succeeds, pays each exactly their share and touches nobody else |
| `Claims.OrderIrrelevant` | docs/trust/escrow-actors.md:23-23 | Two orders of the same claims end in the same state but for the order of the log |
| `Claims.OnlyClaimsLeft` | programs/batchit/src/instructions/claim.rs:10-10 | Once finalized, claiming is the only pool instruction that can succeed |
| `Claims.ClaimCannotBeBlocked` | docs/trust/escrow-actors.md:23-23 | After any transactions by anybody else, a due claim still succeeds and pays the same share |
| `Claims.PaidOutOnce` | programs/batchit/src/instructions/claim.rs:17-50 | Over any run a contributor is paid nothing or exactly their share |
| `Claims.FinalizationAudits` | programs/batchit/src/instructions/finalize.rs:29-57 | At any time after finalization, recomputing the split from the stored fields gives the stored split, worth no more than was contributed |
| `Claims.FinalizationEventAudits` | programs/batchit/src/events.rs:40-51 | The Finalized event alone allows the same recomputation and agrees with the pool |
| `Claims.ClaimArithmeticExact` | programs/batchit/src/math.rs:49-58 | In every claimable pool the 64-bit share, the mirror's share and the exact floor coincide |
| `Lifecycle.EscrowConserved` | programs/batchit/src/state.rs:45-60 | Totals equal the sum and number of records and the deposits in the log, within the pool's bounds; before the buy the account holds rent plus everything owed |
| `Lifecycle.SupplyConserved` | programs/batchit/src/instructions/contribute.rs:28-36 | No transaction, successful or not, creates or destroys a lamport |
| `Lifecycle.PoolOutflow` | docs/trust/escrow-actors.md:22-22 | Lamports leave the pool account in three ways only: a contributor's own deposits to that contributor, the whole escrow to the buyer address and the pump in the one buy, or the whole balance to the creator when every record is refunded |
| `Lifecycle.ExactlyOneBuy` | programs/batchit/src/instructions/complete_buy.rs:15-51 | At most one buy over any run, for the total and mint frozen by `begin_launch`, within the pool's bounds |
| `Lifecycle.BoughtForGood` | programs/batchit/src/instructions/complete_buy.rs:16-19 | After the buy, over any run with any repeated buys, mint, total, tokens bought and everybody's part stay the same and no lamports leave; after finalization neither does the split change |
| `Lifecycle.OutcomesExclusive` | programs/batchit/src/state.rs:10-17 | No run both buys and refunds, no contributor is both paid and refunded, and the status Closed is never reached |
| `Lifecycle.OnlyEdges` | programs/batchit/src/state.rs:3-17 | Every transaction keeps the status or takes one edge of the life cycle |
| `Lifecycle.AtMostThreeChanges` | programs/batchit/src/state.rs:3-17 | Any run of a created pool changes its status or existence at most three times |
| `Lifecycle.TermsFixed` | programs/batchit/src/instructions/create_pool.rs:32-43 | Nobody can move a pool's deadlines or bounds after creation |
| `Lifecycle.PhasesSeparate` | README.md:46-46 | Under a monotone clock every deposit precedes `launch_at`, every launch and buy falls in the launch window, every mark and refund comes after it, and that window is not empty |
| `Lifecycle.ClockSetBack` | programs/batchit/src/instructions/refund.rs:13-13 | Every run into a refundable pool that still owes somebody leaves the windows with one more refund timed before the deadline |
| `Lifecycle.ClockMustNotGoBack` | programs/batchit/src/instructions/refund.rs:13-13 | Such a run exists, so the windows do need a monotone clock |
| `Lifecycle.ClosedOwesNothing` | programs/batchit/src/instructions/close_pool.rs:14-15 | When the account is gone, every contributor has been given back all they put in and no buy happened |
| `Lifecycle.BoughtNeverCloses` | programs/batchit/src/instructions/close_pool.rs:8-14 | A pool that bought holds at least the minimum raise and refuses to close, so no claim is stranded |
| `EventLog.StepTold` | programs/batchit/src/instructions/contribute.rs:68-73 | Each transaction emits at most one event, and that event is exactly the change it made; none is emitted by exactly the failed transactions, the repeated buys, the close and transactions outside the program |
| `EventLog.LogIsComplete` | programs/batchit/src/events.rs:3-71 | Folding the events of any run gives the pool's fields and every contribution's amount and flags |
| `EventLog.LogTellsAllButClose` | programs/batchit/src/events.rs:3-71 | Two reachable pools with the same log are in the same state, but for a refundable, empty pool that may have been closed |
| `EventLog.CloseUntold` | programs/batchit/src/instructions/close_pool.rs:6-17 | A live pool's log is also the log of a closed one if and only if the pool is refundable and empty |
| `BurnMath.SplitIsExhaustive` | programs/batchit/src/math.rs:18-46 | The split fails on three zero tests only; otherwise claimable plus burned is what was bought |
| `BurnMath.SplitMirrorIff` | packages/core/src/burn.ts:16-39 | Program and mirror give the same split (the mirror echoing its inputs) and the same failures if and only if the quotient fits 64 bits or its low 64 bits still reach the cap |
| `Numbers.TruncDivTowardsZero` | packages/core/src/burn.ts:26-27 | The mirror's division leaves a remainder smaller than the divisor and of the dividend's sign |
| `BurnMath.QuoteCoversTotal` | programs/batchit/src/math.rs:28-34 | A pool total no larger than the quote reserves guarantees that |
| `BurnMath.EverySplitHasAPrice` | programs/batchit/src/math.rs:28-45 | For every total and every part of the tokens bought, from none to all, there are positive reserves at which exactly that part is claimable |
| `BurnMath.SplitMirrorFails` | programs/batchit/src/math.rs:32-34 | An input on which they differ: the program burns everything, the mirror nothing |
| `BurnMath.LargestAffordable` | programs/batchit/src/math.rs:28-34 | Uncapped and untruncated, the claimable amount is the largest one the contributions pay for at the final price |
| `BurnMath.ValueNeverExceedsTotal` | programs/batchit/src/math.rs:75-89 | Its value at the final price never exceeds the contributions, cap and truncation included |
| `BurnMath.CostBasisTight` | programs/batchit/src/math.rs:75-89 | Uncapped and untruncated, it falls short by at most the quote value of one token plus one |
| `BurnMath.AllocationMirrorIff` | packages/core/src/burn.ts:42-50 | Program and mirror give the same allocation if and only if the share fits 64 bits |
| `BurnMath.AllocationIsShare` | programs/batchit/src/math.rs:49-58 | For a contribution within the total it does, and the share is at most what is distributed |
| `BurnMath.AllocationMirrorFails` | programs/batchit/src/math.rs:54-57 | Outside that range an input on which they differ |
| `BurnMath.DustBound` | programs/batchit/src/math.rs:11-11 | For any number of contributors the floor shares sum to at most `distributable` and to more than `distributable` minus that number |
| `BurnMath.ShareMonotone` | programs/batchit/src/math.rs:49-58 | A larger contribution never gets less |
| `BurnMath.SplittingNeverPays` | programs/batchit/src/math.rs:49-58 | Splitting a stake never gains and loses at most one token |
| `BurnMath.SplittingManyWays` | programs/batchit/src/math.rs:49-58 | Splitting it into any number of parts never gains either and loses less than one token per part |
| `BurnMath.ShareFairness` | programs/batchit/src/math.rs:49-58 | Two shares deviate from strict proportion by less than the opposite stakes |
| `CurveReserves.ReservesRoundTrip` | programs/batchit/src/pump.rs:25-34 | Decoding inverts the four-field encoding for any discriminator and trailing bytes |
| `CurveReserves.BytesDetermined` | programs/batchit/src/pump.rs:25-34 | Encoding what was decoded gives back bytes 8 to 40, and decoding fails exactly below 40 bytes |
| `CurveReserves.SamePrice` | programs/batchit/src/pump.rs:27-30 | Two accounts hold the same virtual reserves if and only if their bytes 8 to 24 are the same |
| `Bytes.FromLeConcat` | programs/batchit/src/pump.rs:29-32 | Bytes are read little-endian: a byte string after another weighs 256 to the power of the first one's length |
| `PoolLayout.DecodePool` | tests/localnet/src/pool-decode.ts:31-90 | The shared cursor fails exactly on buffers under 159 bytes and otherwise reads each field at its place |
| `PoolLayout.PoolRoundTrip` | programs/batchit/src/state.rs:25-61 | Those fields of an encoded pool are the pool's, for every pool |
| `PoolLayout.UnreadFields` | programs/batchit/src/state.rs:27-60 | The fields the decoder passes over are at their declared places too: discriminator and bumps before, reserves, claimed and refunded totals after |
| `PoolLayout.EncodePool` | programs/batchit/src/state.rs:63-85 | The encoding is as long as `Pool::LEN` |
| `Recovery.StageMatchesGuards` | apps/orchestrator/src/state-machine.ts:33-51 | The orchestrator waits for refunds exactly when refunds are allowed and builds a bundle exactly when the buy's status and time guards pass |
| `Recovery.BundleIffBuilding` | apps/orchestrator/src/state-machine.ts:53-59 | For every status, a bundle is chosen exactly when some clock makes the orchestrator build one; the create is in it only without a curve |
| `Recovery.UnknownStatusIdles` | apps/orchestrator/src/state-machine.ts:33-59 | A string that is no status name gives idle and no bundle |
| `Recovery.BundleWhileBuyable` | apps/orchestrator/src/state-machine.ts:57-57 | In the joint system no bundle is due exactly when the buy's guard passes at no time, and then no transaction by anybody could be the buy |
| `Recovery.SmallestBundle` | apps/orchestrator/src/state-machine.ts:53-59 | The create is in the bundle exactly when the buy alone would fail with `CreateNotLanded`; otherwise the buy alone succeeds exactly when the pump accepts |
| `Recovery.JointIsPoolRun` | apps/orchestrator/src/state-machine.ts:1-8 | Every run of the joint system is a run of the pool, so whatever holds of all reachable pools holds there |
| `Recovery.NoBuyWithoutCreate` | docs/plans/phase-1-escrow.md:166-173 | In the joint system, where others may pass any account as the curve, no pool is ever bought without its mint's bonding curve |
| `Recovery.GuardAloneIsNotEnough` | programs/batchit/src/instructions/complete_buy.rs:30-35 | The program's guard passes exactly the non-empty accounts of the pump program; it is the pump's refusal of all but the mint's own curve that makes the buy need the create |
| `Recovery.OneFullRoundBuys` | apps/orchestrator/src/state-machine.ts:33-59 | Wherever buying is still possible, one bundle that lands whole and that the pump accepts reaches Bought, with or without an earlier create |
| `Recovery.CrashesInvisible` | apps/orchestrator/src/state-machine.ts:1-8 | A check on the model of resuming rather than a main result: no step reads the saved stage, so dropping every crash from a run gives the same chain and curves |
| `Recovery.PartialLandingRecovers` | apps/orchestrator/src/launch.ts:62-62 | From any reachable launching pool, after anything before the deadline (lost or half-landed bundles, rejected buys, crashes, trades, anybody's transactions) the launch stands, and the next whole bundle the pump accepts leaves exactly one buy of the committed mint for the frozen total |
| `Recovery.DeadlineEndsLaunch` | apps/orchestrator/src/state-machine.ts:33-51 | From the deadline on, after any such run and for any fate of a bundle, nothing is submitted; without a buy everybody's refund goes through |
| `Recovery.FinalizeOnCurve` | programs/batchit/src/instructions/finalize.rs:14-34 | Handed the mint's own curve, of any length, finalize succeeds exactly at a positive price and splits at the curve's price; handed another account, it does so exactly when that account carries the same virtual reserves |
| `Settlement.CanBeSettled` | docs/trust/escrow-actors.md:24-24 | From every reachable live pool and for any account data with a positive price, transactions of its contributors alone (and, if it is due, anybody's finalize with that data) all succeed and leave everybody with exactly their deposits back, or everybody with exactly their share |
| `Settlement.CanAlwaysBeSettled` | docs/trust/escrow-actors.md:24-24 | The same without any condition: data with a positive price, at which nothing is burned, always exists |

## Left out

- The pump program, SPL Token, Anchor account constraints, address derivation and the rent formula: foreign code, present as oracles, constants or the assumptions above.
- `cpi_buy_exact_sol_in`, both spike programs and the TypeScript instruction builders: account lists around a call whose effect is not visible here.
- `jito.ts`, configuration, deployment, validators and the input and output of `launch.ts`: network and files. Only the resume contract of `launch.ts` is modelled.
- `projectedBurnRatio`: a floating-point display value over `computeDistributable`.
- The `test-mock-buy` branch of `complete_buy`, compute limits, log messages and error texts.
- Creating a pool again at an address that was closed.
- EscrowProgram.Escrow.ClaimHandler: a zero transfer is skipped by the source and performed by the model; no balance differs.
- EscrowProgram.Escrow.CreatePoolHandler: the pool account is one record field updated field by field, so aliasing between two pool accounts is not modelled; there is one pool.
- EventLog.LogIsComplete: the two bump seeds and the closing of the account are in no event and therefore not reproduced.
