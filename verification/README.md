# Loop in Dafny

A model of the client side of Lightning Loop, the non-custodial swap service, and
proofs about it. `dafny verify dfyconfig.toml` checks everything (Dafny 4.11).

The project follows the client's own parts:

- **Swap executors.** `LoopIn`, `LoopOut` and `CostMigration` model the event loops
  of `loopin.go`, `loopout.go` and `cost_migration.go` with their in-memory fields
  and the durable event log. The `...Executor` modules hold the same code as objects
  whose methods update fields in place, each proved equal to the functions.
- **State machines.** `Fsm` is the generic table-driven engine and its cached
  observer; `InstantOut` is the instant-out protocol on it, with its store and its
  recoveries; `InstantOutExecutor` is the object form and the link between the two.
- **Autoloop.** `Threshold` and `FeePortion` are the arithmetic under the planner;
  `Planner` is one pass. What holds of a pass is in `PlannerBooks` (budget and slots,
  against sums over the fee fields of the swaps), `PlannerPartition` (which rules are
  answered) and `PlannerChoice` (which swaps are chosen); `PlannerRuns` is about
  conflicts and all ticks; and `PlannerExecutor` is the pass as loops over maps and
  lists.
- **Algorithms.** `Bandwidth` (multi-part payments), `Paging` (the swap listing),
  `MissionControl` and `RoutingPlugin` (the low-to-high routing plugin), `Codec`,
  `Contracts` and `ContractBuffers` (stored records and their migrations).
- **Shared.** `SwapStates` holds the swap states and the event log, `Calls` the replies
  to calls, `Options` and `Arithmetic` what their names say.

How the outside is modelled: every call that leaves the process, and every turn of a
select loop, consumes one tick of a tape that says how it went. A process whose tape
is empty has died in that call, and nothing it does after that has an effect. A claim
for all tapes is therefore a claim for every interleaving, every error and every
point at which the client can crash; a claim for all sequences of tapes covers all
restarts. A store or RPC call may fail with or without having taken effect. The outside
also keeps a record of what it has reported to the process (heights, the HTLC, spends,
fees) and of what was asked of it (sends, broadcasts, handovers, pushes, each with what
was reported and stored by then). Only the outside writes that record, so that the safety
claims do not rest on what the executor believes.

Beside the safety claims stand claims of progress: if no call fails and nothing interrupts
the process, a swap ends in a stored final state (`LoopIn.CalmLife`, `LoopOut.CalmLife`,
`InstantOut.CalmStart` and `CalmRecovery`), and a pass of the planner answers
(`PlannerBooks.PassAnswers`) and leaves nothing out that fits (`PlannerChoice.PassChooses`).

Assumptions about the outside, each stated where it is used:

- lnd resolves payment against cancellation atomically, a settled invoice stays
  settled, and only canceled invoices are deleted.
- The pending and final swap states are those that `client.go`, `loopin.go` and
  `liquidity/liquidity.go` rely on.
- Between planner ticks a finished swap changes no more, and finishing costs no less
  than nothing and no more than was reserved (`PlannerRuns.LedgerStep`).
- A forced mission control import overwrites the pairs it names, or has no effect;
  either way it may be reported as failed.
- A planner swap that was accepted and is not dispatched had fees that are not
  negative (`PlannerRuns.UnsentCost`).

Where a property one would expect does not hold of the code, the model keeps the
code, and there is a run that shows it and the exact condition under which the
property holds:

- the server cost after a restart: `LoopIn.StaleCostAfterRestart`, conditions in
  `LoopIn.Resolved` for a life and `LoopIn.ServerCostOverLives` for all of them;
- the fee of the HTLC after a restart: `LoopIn.UnbookedFeeAfterRestart`, condition in
  `LoopIn.OnchainCostOverLives`;
- the handover that a restart forgets: `LoopOut.RevealForgottenByRestart`, condition
  in `LoopOut.UntornDecides`;
- a failed instant-out whose preimage is out: `InstantOutExecutor.FailedAfterPush`,
  conditions in `InstantOut.RecoveryFailsExactly` and
  `InstantOut.PushedSwapFailsOnlyIf`;
- the event that the table rejects: `InstantOutExecutor.RejectedInWait`, condition in
  `InstantOut.SweeplessRejectedExactly`;
- the part more than allowed and the loop that never ends:
  `Bandwidth.OneMoreThanAllowed` and `Bandwidth.NeverEnds`, conditions in
  `Bandwidth.BandwidthSound` and `Bandwidth.LoopEnds`;
- swaps lost between pages: `Paging.SameTimeLost`, condition in
  `Paging.PagingExactly`;
- the empty ranking: `RoutingPlugin.FreePeersCrash`, condition in
  `RoutingPlugin.CrashedExactly`;
- the attempt too many: `MissionControl.SixthAttemptFindsNobody`, condition in
  `MissionControl.OneAttemptTooMany`;
- the import that is not undone: `MissionControl.LostImportForgotten`, conditions in
  `MissionControl.Bracket` and `MissionControl.BracketForgets`.

The comment on `worstCaseOutFees` speaks of a prepayment that is lost; the code does
not add it, and the model follows the code.

## Model

| member | source | states |
|---|---|---|
| LoopIn.LoopInExclusion | loopin.go:729-1321 | over every sequence of client lives, crashes, RPC errors and interleavings: the timeout transaction is broadcast only at or after the expiry, by the height last reported, and only if the invoice is canceled for good; the HTLC key is pushed only for a settled MuSig2 swap; and `SendOutputs` is called at most once, never for an external HTLC, only with `HtlcPublished` durable and ten blocks to go |
| LoopIn.LivesSafe | client.go:499-536 | every life of the client, resumed from the last stored event while the swap is pending, keeps the safety invariant |
| LoopIn.ExecuteEnds | loopin.go:729-807 | the whole execution keeps the invariant, whatever the outside answers; an update that only a completed wait stores is there, even after a failing store call, only with the resolved state and cost |
| LoopIn.PublishSafe | loopin.go:907-983 | `HtlcPublished` is stored before the outputs are sent, only a stored state allows the call, and the fee of the HTLC is what is booked |
| LoopIn.SendSafe | loopin.go:941-983 | the outputs are sent once, with `HtlcPublished` durable and ten blocks to go; exactly a failed call marks the swap `FailInsufficientConfirmedBalance`, and that is what is stored if anything is; otherwise the fee of the transaction is booked |
| LoopIn.EnsurePublishedSafe | loopin.go:738-762 | a resumed swap that is past publication is not published again |
| LoopIn.ConfSafe | loopin.go:810-905 | waiting for the HTLC keeps the invariant, also when the swap is abandoned, and answers with the value that was reported |
| LoopIn.CheckValueSafe | loopin.go:770-789 | exactly an HTLC of another value marks the swap; nothing else of it changes, and the mark is what is stored if anything is |
| LoopIn.RefundSafe | loopin.go:1193-1241 | a refund is authorized only once the invoice is canceled for good; otherwise the swap is as it was, or the payment was found and booked as what it fell short of the amount |
| LoopIn.RefundErrsExactly | loopin.go:1193-1241 | asking for the refund fails exactly if the invoice was found paid and that could not be stored; other failures are retried |
| LoopIn.BookSafe | loopin.go:1202-1229 | the payment found at refund time is booked as what it fell short of the amount |
| LoopIn.TimeoutSafe | loopin.go:1029-1050 | a timeout transaction goes out only after the refund was authorized and the expiry reached, and its fee is what the wait remembers |
| LoopIn.BlockRefunds | loopin.go:1086-1098 | at or after the expiry a block gets the invoice of an unpaid swap canceled and a timeout transaction broadcast, as far as the calls succeed |
| LoopIn.PushKeySafe | loopin.go:1251-1278 | the key is pushed only for a settled invoice |
| LoopIn.PushKeyExactly | loopin.go:1251-1278 | the key is pushed exactly if the swap uses MuSig2, its invoice is known to be settled, the key can be derived and the process lives to push it |
| LoopIn.SpendSafe | loopin.go:1280-1321 | handling the spend of the HTLC keeps the invariant; a refund books the fee of the timeout transaction last built |
| LoopIn.SpendExactly | loopin.go:1280-1321 | a refund ends the wait with an error exactly if the invoice could not be canceled, and otherwise finds it canceled, or paid before |
| LoopIn.BlockSafe | loopin.go:1086-1098 | a new block keeps the invariant |
| LoopIn.InvoiceUpdateSafe | loopin.go:1122-1178 | an invoice update keeps the invariant |
| LoopIn.UpdateFinalizes | loopin.go:1122-1178 | exactly an update that reports the invoice paid or canceled finalizes it |
| LoopIn.BlockPushesKey | loopin.go:1086-1098 | so does every block after it until a push was acknowledged |
| LoopIn.UpdatePushesKey | loopin.go:1122-1178 | a settled update pushes the key |
| LoopIn.AbandonSafe | loopin.go:1388-1415 | abandoning keeps the invariant |
| LoopIn.AbandonExactly | loopin.go:1388-1415 | an abandoned swap is stored as such and its invoice can no longer be paid, as far as the calls succeed |
| LoopIn.WaitLoopSafe | loopin.go:1063-1178 | the select loop keeps the invariant for every order of its events |
| LoopIn.LoopInOutcome | loopin.go:729-807 | `executeSwap` succeeds only in a durable final state with its cost; without a wait it is too late to publish; state, server cost and on-chain cost are given exactly by what the outside reported: the value of the HTLC, the invoice, the spends, and the fees of the HTLC and of the timeout transaction, whichever of update, lookup or spend came first |
| LoopIn.CalmLife | loopin.go:729-807 | if every call is acknowledged, no stream fails and nobody interrupts, a life ends in a stored final state unless the process ends before it |
| LoopIn.ServerCostOverLives | loopin.go:1129-1165 | over every sequence of lives: a finished swap has its invoice settled or canceled; the server cost is 0 if canceled, and what the server paid short of the amount if settled, unless an earlier life stored `InvoiceSettled` at another cost and ended before the swap did, and then it is that cost |
| LoopIn.OnchainCostOverLives | loopin.go:941-983 | over every sequence of lives: the on-chain cost of a finished swap is the fee of the HTLC sent, exactly if the update after the acknowledged send was stored, plus the fees of the timeout transactions built before the reported refunds |
| LoopIn.FinishedNow | loopin.go:729-807 | the life that finishes a swap books the payment, or keeps the server cost stored with `InvoiceSettled`, and its on-chain cost is that of its transactions |
| LoopIn.WaitResolves | loopin.go:999-1180 | a completed wait has resolved the invoice, and the spend decides the state |
| LoopIn.InterruptStops | loopin.go:1076-1178 | an interrupted wait fails and broadcasts nothing more |
| LoopIn.CompletedExactly | loopin.go:1063-1075 | the wait is complete exactly if a spend was reported and the invoice is known to be paid or canceled, or it is known to be paid and the HTLC has expired by the height last reported |
| LoopIn.StaleCostAfterRestart | loopin.go:1150-1162 | a run in which a restart between storing `InvoiceSettled` and setting the cost finishes with server cost 0 instead of 10 |
| LoopIn.UnbookedFeeAfterRestart | loopin.go:941-983 | a run in which the update after the send is not stored, so that the swap finishes without the fee of 7 |
| LoopInExecutor.LoopInSwap.constructor | loopin.go:541-578 | a resumed swap holds what its last stored event holds |
| LoopInExecutor.LoopInSwap.PersistState | loopin.go:1428-1438 | appends the current state and cost, or fails with or without effect |
| LoopInExecutor.LoopInSwap.PublishHtlc | loopin.go:907-983 | the fields change as the specification function says |
| LoopInExecutor.LoopInSwap.AwaitHtlcConf | loopin.go:810-905 | the same for the wait for confirmation |
| LoopInExecutor.LoopInSwap.Refund | loopin.go:1193-1241 | the same for the refund decision |
| LoopInExecutor.LoopInSwap.TimeoutTx | loopin.go:1029-1050 | the same for the timeout transaction |
| LoopInExecutor.LoopInSwap.PushKey | loopin.go:1251-1278 | the same for the key push |
| LoopInExecutor.LoopInSwap.Spent | loopin.go:1280-1321 | the same for the spend |
| LoopInExecutor.LoopInSwap.InvoiceChanged | loopin.go:1122-1178 | the same for an invoice update |
| LoopInExecutor.LoopInSwap.NewBlock | loopin.go:1086-1098 | the same for a block |
| LoopInExecutor.LoopInSwap.Abandon | loopin.go:1388-1415 | the same for abandoning |
| LoopInExecutor.LoopInSwap.AwaitCompletion | loopin.go:999-1180 | the select loop computes the recursive wait |
| LoopInExecutor.LoopInSwap.AwaitEnd | loopin.go:1063-1180 | the same for the loop after its registrations |
| LoopInExecutor.LoopInSwap.Finish | loopin.go:770-807 | the same for what follows the confirmation |
| LoopInExecutor.LoopInSwap.Execute | loopin.go:729-807 | the object ends as the specification of the whole execution says |
| LoopInExecutor.RunLives | client.go:499-536 | a loop that creates one object per life ends in the same world as the specification |
| LoopOut.LoopOutRevealSafety | loopout.go:1274-1344 | over every sequence of lives: the first handover to the sweeper comes with more than 20 blocks to go by the height last reported, for the HTLC as reported and of sufficient value; every other one does or follows a stored reveal; the preimage is pushed only with `PreimageRevealed` stored, and as often as a push was due; and a swap that ends without a reveal pushed nothing and handed over only with replies that tore the handover from storing the reveal |
| LoopOut.UntornDecides | loopout.go:1299-1310 | exactly when a pending swap can, in whatever lives follow, still end without a reveal: if and only if each of its handovers was torn, by its own reply or by that of the store call after it |
| LoopOut.FirstReveal | loopout.go:1299-1310 | a handover by an unrevealed swap makes the reveal durable exactly if it is not torn |
| LoopOut.LateFails | loopout.go:1035-1060 | an unrevealed swap that resumes too late fails, whatever was handed over |
| LoopOut.LoopOutRun | loopout.go:419-492 | one life succeeds only with a durable final state; both payments were consumed, neither in an unexpected state, and the cost is exactly theirs; the reported spend decides the state and the on-chain cost, and without one what was reported explains the failure: a late height, a failed payment or an HTLC of too little value; the HTLC is stored as known exactly if it was reported; and a failure without reveal revealed nothing |
| LoopOut.CalmLife | loopout.go:419-492 | if every call is acknowledged, no stream fails, no payment is in an unexpected state and nobody stops the client, then a life ends in a stored final state unless the process ends first, and it only goes on for as long as what decides the swap was not reported |
| LoopOut.RevealSafe | loopout.go:1299-1310 | the sweep is added before the reveal is stored, and what that leaves behind |
| LoopOut.RevealAndPushSafe | loopout.go:1274-1344 | the push follows the stored reveal, and happens whenever it is due |
| LoopOut.SpendSafe | loopout.go:1164-1325 | the wait for the spend keeps the invariant, answers with the spend that was reported, and gives up only on a swap that never revealed and has no more than 20 blocks left by the height last reported |
| LoopOut.TrySweepSafe | loopout.go:1275-1325 | what the timer does keeps the invariant |
| LoopOut.TimerHandsOver | loopout.go:1275-1310 | a revealed swap, or one with more than 20 blocks left, hands its HTLC over whenever the timer fires |
| LoopOut.TimedOutSafe | loopout.go:1275-1298 | an unrevealed swap with no more than 20 blocks left by the height last reported gives up when the timer fires, and hands nothing over |
| LoopOut.SpendCosts | loopout.go:1164-1325 | the wait for the spend leaves costs and payments alone |
| LoopOut.SweepSafe | loopout.go:594-636 | the state after the sweep is what the spend says |
| LoopOut.AwaitUnrevealedKeeps | loopout.go:1060-1139 | the wait of an unrevealed swap consumes each payment result at most once, and gives up only for a failed payment or too late a height |
| LoopOut.AwaitRevealedKeeps | loopout.go:1142-1152 | only a confirmation ends the wait of a revealed swap |
| LoopOut.HtlcWaitStarves | loopout.go:1003-1160 | in such a life, the wait for the HTLC fails only by the end of the process, before the HTLC was reported and, for an unrevealed swap, while it is not too late and no payment has failed |
| LoopOut.ExecuteSafe | loopout.go:546-636 | the execution keeps the invariant |
| LoopOut.ReceiveBooked | loopout.go:495-542 | a payment result is booked once, in whatever order the two come |
| LoopOut.AwaitPaymentsKeeps | loopout.go:441-478 | finalizing waits for both payments and books them |
| LoopOut.PaymentsEnd | loopout.go:441-478 | in such a life, finalizing fails exactly if one of the payments is never delivered |
| LoopOut.RevealForgottenByRestart | loopout.go:1299-1306 | a run in which a restart forgets a handover, so that a swap whose HTLC is with the sweeper ends in `FailTimeout` |
| LoopOutExecutor.LoopOutSwap.constructor | loopout.go:293-341 | a resumed swap starts with no costs and the last stored state |
| LoopOutExecutor.LoopOutSwap.TakePayment | loopout.go:495-542 | each result channel is read once, and its cost added |
| LoopOutExecutor.LoopOutSwap.AwaitHtlc | loopout.go:1003-1160 | the fields change as the specification function says |
| LoopOutExecutor.LoopOutSwap.HandOver | loopout.go:1274-1344 | the same for handover, reveal and push |
| LoopOutExecutor.LoopOutSwap.AwaitSpend | loopout.go:1164-1325 | the same for the wait for the spend |
| LoopOutExecutor.LoopOutSwap.Execute | loopout.go:546-636 | the same for the execution |
| LoopOutExecutor.LoopOutSwap.CollectPayments | loopout.go:441-478 | the same for the payments that are still out |
| LoopOutExecutor.LoopOutSwap.Finalize | loopout.go:419-492 | the object ends as the specification of the whole life says |
| LoopOutExecutor.RunLives | client.go:499-519 | a loop that creates one object per life ends in the same world as the specification |
| CostMigration.CalculateLoopOutCost | cost_migration.go:24-105 | the accumulated cost, or an error for a swap that is not final |
| CostMigration.CostConfluence | loopout.go:441-542 | in whatever order both results arrive, a finished run has booked the same costs |
| CostMigration.MigrationMatchesBooks | cost_migration.go:64-105 | per final state, exactly when the migration reproduces the server and off-chain costs that the executor booked |
| Fsm.NextState | fsm/fsm.go:167-208 | the result is the state that the table leads to, and there is none exactly if the table leads nowhere |
| Fsm.SendEventPath | fsm/fsm.go:212-278 | for every table, action oracle and event: the notifications are a path of the table labelled with the events sent and returned; a rejected event changes neither current nor previous state; and the engine stops early only for lack of a transition |
| Fsm.RunPath | fsm/fsm.go:212-278 | over every sequence of calls all notifications form one path |
| Fsm.FixedSizeSlice.Add | fsm/observer.go:180-190 | holds exactly the last `maxLen` elements |
| Fsm.StateMachine.Step | fsm/fsm.go:167-208 | moves if and only if the table lists the event |
| Fsm.StateMachine.Send | fsm/fsm.go:212-278 | the loop computes the specification, and the observer holds exactly the last notifications |
| InstantOut.TableFollowsEdges | instantout/fsm.go:229-320 | the table that the engine takes lists exactly the edges of the protocol |
| InstantOut.RankDecreases | instantout/fsm.go:229-320 | only a recovery leads back to an earlier stage |
| InstantOut.SendEventTerminates | fsm/fsm.go:212-278 | on this table every `SendEvent` ends, whatever the actions return |
| InstantOut.PushPreimageAction | instantout/actions.go:439-580 | once it has pushed it never returns `OnError`, it reports the sweepless sweep only after a push, and without time left it pushes nothing |
| InstantOut.ActSafe | instantout/actions.go:78-735 | every action keeps the fallback: the finalized HTLC transaction is set before the push and never dropped |
| InstantOut.FallbackHeld | instantout/actions.go:342-580 | over every start and every sequence of recoveries, with any store errors: preimage pushes and HTLC broadcasts happen only while the finalized HTLC is held, a stored later state has it, and a process that has recovered the swap pushes only at a height it was told that leaves 6 blocks to the expiry and 40 to that of each reservation |
| InstantOut.LateRecoveryIsSilent | instantout/actions.go:447-487 | a recovery that cannot learn the height, or learns one that leaves too little time, pushes nothing |
| InstantOut.PushNeverFails | instantout/actions.go:439-580 | an activation that issued the push never ends in `Failed` |
| InstantOut.ReservationCheckRedundant | instantout/actions.go:119-123 | the 40-block margin of Init makes the reservation check at recovery pass exactly when the CLTV check does |
| InstantOut.RecoverSafe | instantout/manager.go:97-136 | a recovery keeps the invariant and the stored swap |
| InstantOut.InitExactly | instantout/actions.go:78-235 | the same about the first action, and what is stored |
| InstantOut.StoredExactly | instantout/actions.go:78-235 | a start leaves a stored swap exactly if there are reservations, all of them last 40 blocks longer than the swap, the server agreed and the store took it |
| InstantOut.RecoveryFailsExactly | instantout/fsm.go:245-268 | a recovery ends in `Failed` if and only if the stored state precedes `PushPreimage` or it fails before pushing again |
| InstantOut.PushedSwapFailsOnlyIf | instantout/fsm.go:324-352 | a pushed swap is stored as `Failed` only if a store update was lost or an activation erred before its push |
| InstantOut.SweeplessRejectedExactly | instantout/actions.go:584-618 | the event returned for a failed notification is rejected by the table, exactly then, and the machine stops without publishing the HTLC |
| InstantOut.UnlistedOnlyThere | instantout/fsm.go:229-320 | it is the only event that an action returns and the table does not list |
| InstantOut.ActEarned | instantout/actions.go:239-735 | an action returns an event only after having done what the state that it leads to stands for |
| InstantOut.FinishedEarned | instantout/actions.go:239-735 | over every start and every sequence of recoveries: a swap stored as finished has paid, holds the signatures, and has pushed its preimage and seen its sweepless sweep confirm, or has broadcast the HTLC and seen the sweep of it confirm |
| InstantOut.CalmPush | instantout/actions.go:439-580 | the same from the push on, for a start and for a recovery |
| InstantOut.CalmRecovery | instantout/manager.go:97-136 | if every call succeeds after a restart, a swap that has its signatures ends stored as finished: by its sweepless sweep if it waits for that, or has yet to push and time is left, and otherwise by the sweep of its HTLC without a new push; an earlier one is stored as failed |
| InstantOut.CalmStart | instantout/fsm.go:229-320 | if every call succeeds, a start that may be made ends stored as finished by its sweepless sweep, with one push |
| InstantOut.SweepRecorded | instantout/actions.go:560-693 | over every start and every sequence of recoveries: a stored swap that waits for the confirmation of its sweep, or has finished, has that transaction on record |
| InstantOutExecutor.EngineRefined | fsm/fsm.go:212-278 | given what the actions return, the generic engine ends in the same state with the same outcome; its notifications are, one by one, the updates and actions that led to the new record and world; and no action asks for a recovery |
| InstantOutExecutor.FailedAfterPush | instantout/actions.go:489-512 | there is a run whose swap is stored as `Failed` after its preimage was pushed |
| InstantOutExecutor.RejectedInWait | instantout/actions.go:584-618 | there is a start that ends rejected in `WaitForSweeplessSweepConfirmed`, with the preimage pushed and no HTLC published |
| InstantOutExecutor.InstantOutFsm.UpdateInstantOut | instantout/fsm.go:324-352 | the record and the store change as the specification function says |
| InstantOutExecutor.InstantOutFsm.InitInstantOut | instantout/actions.go:78-235 | the loop over reservations accepts exactly the usable ones, and only a stored swap is started |
| InstantOutExecutor.InstantOutFsm.BuildHtlcTx | instantout/actions.go:342-433 | sets the finalized HTLC transaction on success only |
| InstantOutExecutor.InstantOutFsm.TimeLeft | instantout/actions.go:447-487 | the recovery check, over all reservations |
| InstantOutExecutor.InstantOutFsm.PushThePreimage | instantout/actions.go:439-580 | as the specification function says |
| InstantOutExecutor.InstantOutFsm.AwaitSweepless | instantout/actions.go:584-618 | as the specification function says |
| InstantOutExecutor.InstantOutFsm.BroadcastHtlc | instantout/actions.go:621-655 | as the specification function says |
| InstantOutExecutor.InstantOutFsm.BroadcastHtlcSweep | instantout/actions.go:658-693 | as the specification function says |
| InstantOutExecutor.InstantOutFsm.SendEvent | fsm/fsm.go:212-278 | the loop of entering states computes the specification |
| InstantOutExecutor.RunLives | instantout/manager.go:97-136 | a start and any number of recoveries end in the same world as the specification |
| Threshold.SuggestedExactly | liquidity/threshold_rule.go:74-184 | exactly when a swap is suggested, and how large it is |
| Threshold.GoalsExactly | liquidity/threshold_rule.go:74-184 | goal and minimum are the percentages of the capacity that the rule names, rounded down, and the aim is halfway between the goal and what the minimum leaves |
| Threshold.SwapKeepsReserve | liquidity/threshold_rule.go:74-184 | a suggested swap respects the limits and its aim, leaves the reserve at its minimum or above, and the opposite direction suggests nothing before or after it |
| Threshold.Converges | liquidity/threshold_rule.go:74-184 | repeating the swaps ends with the target met or less missing than the smallest swap, nothing lost, and neither direction suggesting more |
| Threshold.ReserveNeverBelow | liquidity/threshold_rule.go:140-184 | no state on the way takes the reserve below its minimum |
| FeePortion.SplitLosesAtMostOne | liquidity/fees.go:400-410 | each payment gets its own share of what is available, in proportion to its own amount and rounded down, and the split loses at most one satoshi |
| FeePortion.AcceptedExactly | liquidity/fees.go:313-392 | the limit is the amount in parts per million, rounded down; acceptance is exactly twice the miner fee plus the swap fee being below it; the last check never refuses; all fees together meet the limit or miss it by one |
| FeePortion.LimitNeedsAmount | liquidity/fees.go:400-410 | an accepted amount is not zero, so the split never divides by zero |
| PlannerBooks.PassWithinBudget | liquidity/liquidity.go:1113-1337 | one pass keeps what the swaps of the planner have cost since the last refresh, what the pending ones may cost and what the newly accepted ones may cost within the budget, and their number within the limit, whatever the quotes are, all summed from the fee fields; without budget or room nothing is accepted and every rule gets that reason |
| Planner.AllocateBounded | liquidity/liquidity.go:1240-1337 | what is available plus what was accepted is what there was |
| PlannerBooks.TotalsAreBooks | liquidity/liquidity.go:1571-1660 | the totals that a pass works with are those sums |
| PlannerBooks.PassAnswers | liquidity/liquidity.go:1072-1132 | a pass without rules fails; one with rules answers if budget or room is used up, since it then asks nobody, or if no call breaks |
| PlannerPartition.PassPartitions | liquidity/liquidity.go:1134-1337 | with unique ids and exclusive rules, every examined rule is in exactly one of accepted and disqualified, and nothing else is; without budget or room every rule is disqualified |
| PlannerChoice.PeerBalancesExactly | liquidity/liquidity.go:1134-1160 | the balances of a peer are the sums over its channels, incoming being its side |
| PlannerChoice.ItemsOnBalances | liquidity/liquidity.go:1134-1226 | a peer is examined on the sums over its channels, a channel on its own balances |
| PlannerChoice.AllocateMaximal | liquidity/liquidity.go:1263-1337 | a candidate that is left out would exceed the budget left, or there is no slot left |
| PlannerChoice.PassChooses | liquidity/liquidity.go:1072-1340 | one pass with budget and room: every accepted swap carries out the rule of an examined entity with the amount that the rule gives on its balances and the fees quoted; and a candidate is left out only for lack of budget or slots |
| PlannerPartition.ItemsOk | liquidity/liquidity.go:1134-1233 | what is examined: peers and channels with a rule, and custom channels, each once |
| PlannerPartition.CandidateOfItem | liquidity/liquidity.go:1411-1475 | a candidate names exactly the entity it was made for |
| PlannerPartition.SortCorrect | liquidity/liquidity.go:1235-1238 | the candidates are a permutation in descending order of amount |
| PlannerPartition.SortStable | liquidity/liquidity.go:1235-1238 | candidates of the same amount keep their order |
| PlannerPartition.ConsiderPartitions | liquidity/liquidity.go:1270-1337 | a candidate is accepted, or all its ruled entities get a reason |
| PlannerRuns.InUseOutExactly | liquidity/loopout_builder.go:64-93 | a loop-out is allowed if and only if no channel recently failed or is in use and the peer has no ongoing loop-in |
| PlannerRuns.InUseInExactly | liquidity/loopin_builder.go:50-79 | the same for a loop-in |
| PlannerRuns.InRuleExactly | liquidity/loopin_builder.go:50-131 | the same for a loop-in rule |
| PlannerRuns.OutRuleExactly | liquidity/loopout_builder.go:64-215 | a loop-out rule waits if and only if its swap would not keep clear of others; otherwise amount and quote decide what becomes of it |
| PlannerRuns.ClearExactly | liquidity/liquidity.go:1693-1797 | what a swap keeps clear of, in terms of the swaps of the ledger |
| PlannerRuns.PassSeparate | liquidity/liquidity.go:1358-1475 | accepted swaps keep clear of the channels and peers of ongoing and recently failed swaps of the ledger, share no channel, and share no deposit if the preparer honours exclusions |
| PlannerRuns.DispatchCharges | liquidity/liquidity.go:1571-1660 | the next pass reserves for the dispatched swaps exactly the fees that this one did, and counts them as pending |
| PlannerRuns.ChosenCharges | liquidity/liquidity.go:495-561 | dispatching only some of the accepted swaps charges no more than all of them |
| PlannerRuns.StepWithinLimits | liquidity/liquidity.go:1571-1660 | progress of swaps and a refresh of the budget period keep the totals within the limits |
| PlannerRuns.TickKeeps | liquidity/liquidity.go:483-561 | one tick keeps budget, slots and channel exclusivity, whichever of the accepted swaps get dispatched, if those that do not have fees that are not negative |
| PlannerRuns.BudgetOverTicks | liquidity/liquidity.go:483-561 | over every run of such ticks: what the swaps of the planner have cost and may still cost, summed from their fee fields, is within the budget; they are within the slots; and no channel is in two pending loop-outs of the planner |
| PlannerRuns.FreshStart | liquidity/liquidity.go:1571-1660 | a client without swaps starts within its limits |
| PlannerExecutor.CheckExistingAutoLoops | liquidity/liquidity.go:1571-1660 | the loops compute separately what was spent, what may still be spent and how many swaps are in flight, as summed over the ledger |
| PlannerExecutor.CurrentSwapTraffic | liquidity/liquidity.go:1693-1797 | the loops compute exactly the sets of channels and peers in use or recently failed |
| PlannerExecutor.IndexChannels | liquidity/liquidity.go:1134-1160 | the maps hold, for each peer, the channels and summed balances of its channels without custom data |
| PlannerExecutor.ListItems | liquidity/liquidity.go:1173-1226 | the two loops examine peers, then channels |
| PlannerExecutor.CollectCandidates | liquidity/liquidity.go:1173-1226 | candidates and reasons as the specification says, or the first error |
| PlannerExecutor.DecideOn | liquidity/liquidity.go:1298-1336 | budget, then slots, then fees decide about a swap |
| PlannerExecutor.AllocateCandidates | liquidity/liquidity.go:1263-1337 | the loop computes the allocation |
| PlannerExecutor.Suggest | liquidity/liquidity.go:1072-1340 | the whole pass computes the specification |
| Bandwidth.CheckBandwidth | loopd/swapclient_server.go:3145-3242 | the answer is that of the specification |
| Bandwidth.Search | loopd/swapclient_server.go:3188-3242 | the loop, charging balances in place, computes the recursive search and ends |
| Bandwidth.BandwidthSound | loopd/swapclient_server.go:3145-3242 | a true answer has a witness: that many parts, at most one more than allowed, adding up to the amount and leaving every channel its reserve, each the largest halving of what remained that some channel could pay |
| Bandwidth.ShardsGreedy | loopd/swapclient_server.go:3188-3242 | the parts that the search pays are greedy |
| Bandwidth.OneMoreThanAllowed | loopd/swapclient_server.go:3188-3242 | one part more than allowed is indeed admitted |
| Bandwidth.BandwidthLimit | loopd/swapclient_server.go:3188-3242 | the limit only cuts the search off: a smaller one gives the same answer or false |
| Bandwidth.BandwidthComplete | loopd/swapclient_server.go:3145-3242 | no part is empty, and with enough parts the answer is true exactly if the local balances above the reserves add up to the amount |
| Bandwidth.LoopEnds | loopd/swapclient_server.go:3188-3242 | iterating the loop body reaches the answer of the specification |
| Bandwidth.NeverEnds | loopd/swapclient_server.go:3188-3242 | without channels and with a negative amount the loop never ends |
| Paging.List | loopd/swapclient_server.go:760-821 | filter, sort and cut compute the specification |
| Paging.ListedExactly | loopd/swapclient_server.go:760-821 | one answer lists swaps that match, ascending; without a page size, or with one that they fit, all of them and no next start time; otherwise exactly as many as the page size, none of the others earlier, and the next start time right after the last |
| Paging.PagingRefinesListing | loopd/swapclient_server.go:760-821 | with distinct times, whatever order each request walks the map in, following the pages yields every match once, ascending |
| Paging.PagingExactly | loopd/swapclient_server.go:760-855 | following the pages always ends, and is complete if and only if no page ends between two swaps of the same time |
| Paging.PagesComplete | loopd/swapclient_server.go:795-812 | the same about the sorted list |
| Paging.SortCorrect | loopd/swapclient_server.go:787-793 | the listing is an ascending permutation of the matches |
| Paging.SameListing | loopd/swapclient_server.go:786-793 | with distinct times the order of the walk does not matter |
| Paging.SameTimeLost | loopd/swapclient_server.go:809-812 | of any two swaps of the same time, a client that asks for one at a time is told after the first that it has seen the end |
| MissionControl.DiscouragedGrows | routing_plugin.go:523-568 | once a peer is discouraged it stays so |
| MissionControl.DearestStays | routing_plugin.go:523-575 | within the announced attempts the fee of the dearest peer is never below the limit |
| MissionControl.AttemptedExactly | routing_plugin.go:523-568 | the same about the entries of one attempt |
| MissionControl.TableAfterImports | routing_plugin.go:523-594 | the table after any calls: a ranked peer that the last import found below its limit is marked as failing, any other as able to carry its capacity, and the dearest is never marked within the announced attempts |
| MissionControl.AllowedExactly | routing_plugin.go:523-575 | exactly when some peer is still allowed |
| MissionControl.OneAttemptTooMany | loopout.go:911-950 | exactly when the additional attempt that the caller makes finds nobody left |
| MissionControl.SixthAttemptFindsNobody | loopout.go:911-950 | one such case: with fees of 10 and 20 and five attempts announced, the fifth finds a peer and the sixth none |
| MissionControl.Bracket | routing_plugin.go:600-665 | after Init, any calls and Done: every selected pair is back at its saved amounts, or at its capacity, if an import was acknowledged; a pair that is not selected, or any pair if nothing was imported, is as it was unless someone else changed it |
| MissionControl.BracketForgets | routing_plugin.go:575-613 | the remaining case: if imports took effect and none was acknowledged, Done reports success and every selected pair stays as the last of them left it |
| MissionControl.LostImportForgotten | routing_plugin.go:575-613 | a run in which a peer stays marked as failing |
| MissionControl.TakeKeeps | routing_plugin.go:497-594 | a call touches selected pairs only, and flags the change exactly if the import took effect and was acknowledged |
| RoutingPlugin.WalkFinds | routing_plugin.go:383-450 | the walk ends at the first fork or a dead end after a way without forks that visits no node twice |
| RoutingPlugin.FindFork | routing_plugin.go:383-450 | the loop computes the walk and ends on every finite graph |
| RoutingPlugin.CollectPeers | routing_plugin.go:421-433 | the new peers, each once |
| RoutingPlugin.GatherExactly | routing_plugin.go:455-481 | which peers are gathered at the fork, and when that fails |
| RoutingPlugin.GatherPeers | routing_plugin.go:455-481 | the loop computes them |
| RoutingPlugin.ForkHasChoice | routing_plugin.go:436-481 | at a fork there are at least two peers to choose from, and the node by which the payment leaves is not one of them |
| RoutingPlugin.RankedExactly | routing_plugin.go:316-379 | the ranking holds exactly the peers that charge something, each once with its highest fee, cheapest first |
| RoutingPlugin.FeeOverExactly | routing_plugin.go:324-353 | what one channel asks |
| RoutingPlugin.RatedByPolicies | routing_plugin.go:316-379 | the fee of a ranked peer is the highest that the policies of its channels to the target ask for the amount, and its capacity is that of these channels together |
| RoutingPlugin.MaxFee | routing_plugin.go:324-353 | the highest fee over the channels to the target, or zero |
| RoutingPlugin.CrashedExactly | routing_plugin.go:497-530 | from the second attempt on the plugin indexes an empty ranking exactly if no peer charges anything |
| RoutingPlugin.FreePeersCrash | routing_plugin.go:497-530 | one such network: two peers that forward for free |
| RoutingPlugin.LowToHighPlugin.constructor | routing_plugin.go:480-493 | the ranking and the saved entries after Init |
| RoutingPlugin.LowToHighPlugin.Before | routing_plugin.go:497-594 | the loop and the flag as the specification says |
| RoutingPlugin.LowToHighPlugin.Done | routing_plugin.go:600-665 | the restored entries as the specification says |
| Codec.FieldRoundTrip | loopdb/loop.go:116-174 | a written field reads back, and a text that is too long cannot be read at all |
| Codec.RecordRoundTrip | loopdb/loop.go:116-174 | a written record reads back and leaves what follows it, exactly if all its texts can be read |
| Codec.RecordExtends | loopdb/loopout.go:144-246 | bytes appended to a record do not change what it says |
| Codec.BigEndianOf | loopdb/loop.go:116-174 | every byte string is the encoding of the number it reads as |
| Contracts.LoopInRoundTrip | loopdb/loopin.go:49-213 | a loop-in contract reads back, and equals the original if and only if its last hop is not the zero key |
| Contracts.LoopOutRoundTrip | loopdb/loopout.go:144-332 | a loop-out contract reads back without its outgoing channels, if and only if its texts can be read and its destination is an address |
| Contracts.EventRoundTrip | loopdb/loop.go:116-174 | an event reads back |
| Contracts.CostsMigrated | loopdb/migration_01_costs.go:63-75 | every old event reads as the same event with zero costs |
| Contracts.DeadlineMigrated | loopdb/migration_02_swap_publication_deadline.go:42-56 | every old loop-out contract reads with the same fields and its initiation time as deadline |
| Contracts.LastHopMigrated | loopdb/migration_03_last_hop.go:42-84 | any bytes of the expected length read with the same fields, and the zero key in place of the channel |
| Contracts.MigratedHasNoLastHop | loopdb/migration_03_last_hop.go:42-84 | a migrated contract has no last hop |
| ContractBuffers.Buffer.Put | loopdb/loopin.go:49-115 | appends one field of the record being written |
| ContractBuffers.Reader.Get | loopdb/loopin.go:144-213 | reads one field, or the record cannot be read |
| ContractBuffers.WriteLoopIn | loopdb/loopin.go:49-115 | the bytes of the contract |
| ContractBuffers.ReadLoopIn | loopdb/loopin.go:144-213 | the contract, or an error |
| ContractBuffers.WriteLoopOut | loopdb/loopout.go:248-332 | the bytes of the contract |
| ContractBuffers.ReadLoopOut | loopdb/loopout.go:144-246 | the contract, or an error |
| ContractBuffers.MigrateUpdates | loopdb/migration_01_costs.go:63-75 | every update of a swap is migrated |

## Left out

- Integer widths: amounts, heights and times are unbounded integers; overflow of 64-bit arithmetic is not modelled, except in stored records, where widths and two's complement are explicit.
- Asset swaps, RFQ and the float conversions of asset amounts.
- MuSig2, scripts, key derivation, transaction weights and fee estimation: they succeed or fail, and fees are inputs.
- Wall-clock timers: a timer firing is an event like any other.
- The sweeper that batches sweeps, the manual and the notified sweep, and the reservation and static-address managers behind their interfaces.
- Easy autoloop, sticky dispatch with smaller amounts, and custom assets in the planner: an accepted swap is dispatched as it is or not at all.
- `Planner`: the label, the initiator, the publication deadline and the destination address of a request, which the budget does not depend on; a prepared static loop-in is taken to be for the peer it was asked for.
- `FeeCategoryLimit` and the loop-in fee limits: single comparisons.
- Instant-out: rows of RPCs without an effect of their own count as one call that succeeds or fails, the payment poll is one step, and reservation locking is not tracked.
- The WaitForState helpers of the observer, and concurrent registration of observers.
- Buckets of the database, SQL stores and transactions: kept is that an update is atomic and may be lost.
- `ContractBuffers.WriteLoopIn`, `WriteLoopOut`: the fields are written by a loop over their kinds, where the source writes them by one statement each.
- Paging.PagingExactly: takes the order of equal times to be the same for all requests, because the source sorts without promising one; `Paging.PagingRefinesListing` needs no such assumption.
- RPC conversions, labels, logging, configuration, the daemon and its views.
