# Verification of the ZQ / Polymarket hedging engine

A ZQ futures fill at IBKR creates obligations to buy
Polymarket shares, and the engine must never hedge twice, never forget a fill and
never enter on stale evidence. This project models the parts of it where that is
hard and proves what they guarantee. `dafny verify dfyconfig.toml` checks it all.

Exact rationals (`real`) stand for the engine's decimals. One database session is
one atomic transaction; asyncio code is modelled as steps between its suspensions; an await that cannot
suspend, such as a nested session or the state store's lock, ends no step where a
property depends on it. Code
that updates objects in place is modelled as classes (`Repository`,
`CallbackWatch`, `BatchMachine`, `BookStore`, `IngressBuffer`) whose methods are
proved against specification functions; the theorems are about those functions and
about every run of them.

- **Ledger** — `LedgerModel`, `LedgerSteps` (what each transaction makes of the
  tables), `Repository` (the methods), `RepositoryRuns` (sequences of them),
  `LedgerInvariants`, `LedgerRuns`, `BatchRuns`, `LedgerTheorems`, `LedgerLimits`,
  `TradeLifecycle`, `Rounding`, `Amounts`. What the rows then say is read off
  without those specifications: `ExecutionHistory` (an execution from its accepted
  reports), `BatchStates` (a batch and an obligation from executions and order rows),
  `HedgeOrders` (when an order is taken on and when it is verified), `BatchReports`
  (a batch row after fills and status reports).
- **No over-hedge** — `HonestVenue` puts the venue's own truth beside the ledger;
  `NoOverHedge` proves the bound over every run of both.
- **Callback gap** — `CallbackGap` (the watch), `GapTheorems` (every run),
  `CallbackEvidence` (what a check reports, which orders are disputed, what a lost
  connection forgets), `HonestRace` (the known orders against an honest venue), `LedgerProgress` (the
  race and the ledger move alike).
- **Entry** — `EntryGate`: the submitter, the reconciliation and everything that
  may interleave with them. `RaceGate` puts gate and race together: a callback takes
  the lock, moves the venue revision, publishes, and only then takes effect, while
  entry is authorised without the lock at any moment.
- **Arithmetic** — `DepthWalk`, `EntryPlan`, `Settlement`, `ThreeState`,
  `FedWatch`, and the in-memory `BatchMachine`.
- **Books** — `BookLadder`, `BookStream`, `Snapshots` (a snapshot told from its raw
  entries), `BookRuns`.
- **Ingress** — `Ingress`.

These properties are false of the code as it stands, or hold under a condition; each
is stated with the exact condition and with a run that leaves it:

- A literal CONFLICT status from the venue freezes an execution as pending
  (`TradeLifecycle.OutcomeIsReadExactlyUnlessPoisoned`, `AMarkerFromTheVenueSticks`).
- A COMPLETE batch without obligations and without a cancel reason stays COMPLETE
  when a larger fill is reported (`LedgerLimits.LargerReportReopensExactlyWhen`,
  `LateFillOfACompleteBatch`).
- An order is sent before it is marked submitted, and until then it lends no
  capacity. A fill in between is harmless, because the marking asks for the ledger in
  the stretch that sends and every later check comes behind it. Only when the marking
  itself is cancelled or raises does the order stay INTENT, and then a position ahead
  of the executions is unsafe (`HonestRace.AheadIsToleratedExactlyWhen`,
  `FillOfAnIntentIsUnsafe`); entry stays barred even then.

One condition is the caller's: an intent abandoned after it was filled becomes a
COMPLETE batch that is not hedged (`BatchRuns.AbandonIsSafeExactlyWhenUnfilled`,
`LedgerLimits.AbandonedAfterAFill`). The one caller abandons only what it has not
sent. The no-over-hedge bound and the sum of dues hold in spite of such a call.

No over-hedge assumes an honest venue: it never fills past an order, a terminal
snapshot gives the final fill, and a trade it failed is never confirmed
(`LedgerLimits.LateConfirmationIsExcess` shows what happens otherwise). The race
assumes that only sent orders fill, that a position lies between the last one shown
and the true fills, and that a finished status gives the final fill. Reports may
still be late, repeated and reordered. Runs of the ledger assume of callers that
fallback sizes are not negative.

## Model

| member | source | states |
|---|---|---|
| TradeLifecycle.FoldSettles | src/zq_arb/persistence/hedge_ledger.py:362-376 | over any finite sequence of statuses for one execution, exactly which stored status results: CONFIRMED, FAILED or CONFLICT by which of the two final outcomes were reported, and a first-reported marker CONFLICT sticks |
| TradeLifecycle.StandingDependsOnlyOnWhatWasReported | src/zq_arb/persistence/hedge_ledger.py:446-454 | shares are confirmed iff CONFIRMED was reported and FAILED was not, dropped iff FAILED was and CONFIRMED was not, pending otherwise, whatever the order and repetition |
| TradeLifecycle.OutcomeIsReadExactlyUnlessPoisoned | src/zq_arb/persistence/hedge_ledger.py:362-376 | the exact failing family: a final outcome is misread iff a literal CONFLICT status came from the venue before any ranked status |
| TradeLifecycle.AMarkerFromTheVenueSticks | src/zq_arb/persistence/hedge_ledger.py:362-372 | a concrete history in which that happens: CONFLICT, then CONFIRMED, is pending for ever |
| TradeLifecycle.WithoutMarkerNotPoisoned | src/zq_arb/persistence/hedge_ledger.py:362-376 | a history without the marker is never in the failing family |
| TradeLifecycle.OrderAndDuplicationDoNotMatter | src/zq_arb/persistence/hedge_ledger.py:355-376 | two histories that report the same statuses, in any order and multiplicity, count alike |
| TradeLifecycle.FoldIsTheLatestOfTheHighest | src/zq_arb/persistence/hedge_ledger.py:373-376 | a history without contradiction is stored as the last of its highest-ranked reports: a later one of equal rank replaces, a lower one does not |
| Rounding.RoundSharesUp | src/zq_arb/analytics/payoff.py:102-103 | the result is in whole hundredths, not below the shares and less than 0.01 above them |
| Rounding.RoundSharesUpIsLeast | src/zq_arb/analytics/payoff.py:102-103 | it is the least multiple of 0.01 that is large enough |
| Rounding.SharesForRoundsOnce | src/zq_arb/analytics/payoff.py:102-108 | a cumulative size is the exact ratio times quantity rounded up once, over by less than 0.01 |
| Rounding.IncrementalIsNonNegative | src/zq_arb/analytics/payoff.py:106-108 | what one more fill adds is never negative |
| Repository.Repository.RecordedOn | src/zq_arb/persistence/hedge_ledger.py:430-437 | the loop sums every recorded quantity of one order |
| Repository.Repository.ReopenOutgrown | src/zq_arb/persistence/hedge_ledger.py:429-443 | in place, exactly the resolved orders whose recorded fills outgrew the venue's figure lose their verification |
| Repository.Repository.AllotExecutions | src/zq_arb/persistence/hedge_ledger.py:444-454 | the in-place loop allots by recording order and returns the confirmed and pending totals |
| Repository.Repository.RefreshBatchState | src/zq_arb/persistence/repository.py:624-676 | the batch takes the state its obligations, orders and reports call for, and no other row changes |
| Repository.Repository.RefreshObligation | src/zq_arb/persistence/hedge_ledger.py:395-476 | one refresh: orders reopened, executions allotted, the obligation judged, its batch refreshed |
| Repository.Repository.CreateHedgeOrderIntent | src/zq_arb/persistence/hedge_ledger.py:106-186 | an intent is recorded iff it is signed, new, no order of the obligation is unresolved and it fits the unreserved shares; a raise changes no table |
| Repository.Repository.SetHedgeSubmissionState | src/zq_arb/persistence/hedge_ledger.py:203-212 | only an order whose outcome is awaited changes state |
| Repository.Repository.AcceptHedgeOrder | src/zq_arb/persistence/hedge_ledger.py:214-236 | an acknowledgement for another hash raises; a resolved order keeps its state |
| Repository.Repository.UpdatePolymarketOrderStatus | src/zq_arb/persistence/hedge_ledger.py:242-253 | a status never verifies and never touches a resolved order |
| Repository.Repository.VerifyPolymarketOrder | src/zq_arb/persistence/hedge_ledger.py:255-309 | missing, negative and unknown snapshots; otherwise the check below |
| Repository.Repository.CheckOrder | src/zq_arb/persistence/hedge_ledger.py:282-309 | verified iff terminal, recorded equals matched, matched is within the order and every named trade is known; a stale report leaves a resolved order closed |
| Repository.Repository.RecordPolymarketExecution | src/zq_arb/persistence/hedge_ledger.py:311-393 | a new execution is appended, a repeated one revised, a contradicting payload raises and changes nothing |
| Repository.Repository.ReviseExecution | src/zq_arb/persistence/hedge_ledger.py:362-393 | one more report for a recorded execution follows the lifecycle and refreshes only if it changed |
| Repository.Repository.CreateZqBatchIntent | src/zq_arb/persistence/repository.py:111-174 | batch and reserved order are recorded together, once; malformed ratios or a reused order id raise |
| Repository.Repository.RecordIbkrExecutionAndObligations | src/zq_arb/persistence/repository.py:355-446 | a new fill within the batch adds one execution and both obligations in one commit; duplicates and unknown orders change nothing |
| Repository.Repository.UpdateZqOrderStatus | src/zq_arb/persistence/repository.py:448-489 | a finished order ignores an unfinished status; otherwise order, reported fill and batch state follow |
| Repository.Repository.ReportStatusToBatch | src/zq_arb/persistence/repository.py:471-488 | the reported fill only grows, FILLED without a figure means the whole order, and the batch is refreshed |
| Repository.Repository.MarkBatchCancelPending | src/zq_arb/persistence/repository.py:513-543 | false for a missing or already pending batch, otherwise state and reason are set |
| Repository.Repository.AbandonZqIntent | src/zq_arb/persistence/repository.py:311-332 | only an unsent intent is abandoned; order ABORTED and batch COMPLETE together |
| Repository.Repository.MarkZqSubmitted | src/zq_arb/persistence/repository.py:334-353 | only fields still at their intent values move on |
| Repository.Repository.NormalizeActiveBatchState | src/zq_arb/persistence/repository.py:616-622 | the loop refreshes every batch |
| RepositoryRuns.PerformAll | src/zq_arb/persistence/hedge_ledger.py:106-476 | any sequence of repository calls, raising ones included, takes the object to the ledger state at the end of the run |
| RepositoryRuns.Used | src/zq_arb/persistence/repository.py:111-676 | a repository used from the start holds the ledger invariant |
| LedgerTheorems.ApplyKeeps | src/zq_arb/persistence/repository.py:311-676 | every ledger transaction keeps the whole invariant: unique keys, obligations judged by their own executions, COMPLETE batches complete, sizing exact; an abandonment after a fill costs that one batch the COMPLETE part and nothing else |
| LedgerTheorems.RunKeeps | src/zq_arb/persistence/repository.py:311-676 | so does every run from the empty ledger, COMPLETE being vouched for in all batches but those abandoned after a fill |
| LedgerTheorems.CompleteMeansHedged | src/zq_arb/persistence/repository.py:624-676 | in every ledger state that keeps the invariant, so in every reachable one, a COMPLETE batch with an obligation, not abandoned after a fill, has a terminal ZQ status, executed at least what was reported, every obligation confirmed to the share with nothing pending, and every hedge order terminal and verified |
| LedgerTheorems.CompleteHoldsTheHedge | src/zq_arb/persistence/repository.py:392-399 | and its confirmed shares per token are the ratio times the recorded fills rounded up once to 0.01 |
| LedgerTheorems.DuesTelescope | src/zq_arb/persistence/repository.py:368-435 | with distinct and duplicate fills in any order, the dues of a token add up to the rounded whole, each is non-negative, and total over-rounding is below 0.01 |
| LedgerTheorems.EveryRunHedges | src/zq_arb/persistence/repository.py:311-676 | after every run from the empty ledger: the dues of every batch add up to the rounded whole, and COMPLETE with an obligation means hedged to the share unless the batch was abandoned after a fill |
| LedgerTheorems.AllotmentSums | src/zq_arb/persistence/hedge_ledger.py:444-456 | allotments sum to the smaller of what confirmed and what is due |
| LedgerTheorems.AllotmentWithinFill | src/zq_arb/persistence/hedge_ledger.py:446-454 | no execution is allotted more than its quantity, an unconfirmed one nothing |
| LedgerTheorems.AllotmentInOrder | src/zq_arb/persistence/hedge_ledger.py:446-454 | a later fill gets a share only after every earlier confirmed one has all of its own |
| LedgerTheorems.AllotmentConserves | src/zq_arb/persistence/hedge_ledger.py:429-465 | after any refresh of a ledger that keeps the invariant, the allotments sum to confirmed_shares, and excess is what confirmed and pending exceed the due by |
| ExecutionHistory.HistoryIsStored | src/zq_arb/persistence/hedge_ledger.py:311-393 | over every run, for each execution id: a row exists iff a report was accepted, with the order, quantity and price of the first accepted one, the fold of all accepted statuses, and the trade id of the last report whose status was adopted; no other transaction touches them |
| ExecutionHistory.FirstReportIsRecorded | src/zq_arb/persistence/hedge_ledger.py:326-354 | a first report with a positive quantity and no negative price for a known order is always recorded, as it was sent |
| ExecutionHistory.CountsAsReported | src/zq_arb/persistence/hedge_ledger.py:362-376 | over every run the shares of a recorded execution are counted, dropped or waiting as the accepted statuses say |
| ExecutionHistory.ReportIsAnswered | src/zq_arb/persistence/hedge_ledger.py:318-361 | a report raises iff its figure is implausible, or its order is known and the execution is on record with another order, quantity or price; otherwise the answer is whether the order is known |
| BatchStates.RefreshFindsTheState | src/zq_arb/persistence/repository.py:624-676 | on judged obligations the refresh gives exactly the state that executions, order rows and venue reports call for: COMPLETE iff ended unfilled or ended and hedged, otherwise CANCEL_PENDING, HEDGED, PARTIALLY_HEDGED, POLY_HEDGE_PENDING or as before |
| BatchStates.OrderOpSettlesTheBatch | src/zq_arb/persistence/hedge_ledger.py:214-393 | an acceptance, status, verification or execution report changes nothing, or leaves the batch of its order in that state and every other batch as it was |
| BatchStates.ZqStatusSettlesTheBatch | src/zq_arb/persistence/repository.py:448-489 | so does a status report on a futures order |
| BatchStates.NormalizeSettlesEveryBatch | src/zq_arb/persistence/repository.py:616-622 | normalising leaves every batch in its state |
| BatchStates.CompleteExactlyWhenHedged | src/zq_arb/persistence/repository.py:655-664 | along every run, a report about a hedge order that changes the ledger leaves its batch COMPLETE iff the batch is fully hedged: the converse of CompleteMeansHedged |
| BatchStates.OrderOpSettlesTheObligation | src/zq_arb/persistence/hedge_ledger.py:456-476 | and it leaves the obligation EXCESS iff more is bought than due, else unresolved iff an order is open, else hedged iff confirmed to the share, else waiting iff something is pending |
| HedgeOrders.IntentIsTakenExactlyWhen | src/zq_arb/persistence/hedge_ledger.py:106-160 | an intent is taken on iff it is signed under a venue hash, key and id are new, every earlier order of the obligation is terminal and verified, and its shares are positive and fit what is due less confirmed and pending, all of it included; it is put off or refused otherwise |
| HedgeOrders.TakenIntentIsRecorded | src/zq_arb/persistence/hedge_ledger.py:160-186 | then exactly one unsent order row is added and exactly its obligation marked |
| HedgeOrders.OrderIsVerifiedExactlyWhen | src/zq_arb/persistence/hedge_ledger.py:255-309 | an order is verified iff it ended with recorded shares equal to the venue's figure and within the order, and each associated trade is some recorded execution's; an outdated figure changes nothing and any other opens the order |
| HedgeOrders.FullyRecordedOrderIsVerified | src/zq_arb/persistence/hedge_ledger.py:282-309 | a terminal order whose whole quantity is recorded is verified by a snapshot that names recorded trades only |
| HedgeOrders.ReportReopensTheOutgrown | src/zq_arb/persistence/hedge_ledger.py:429-443 | a recorded execution report opens exactly the settled orders of its obligation whose recorded shares now exceed the figure that settled them |
| HedgeOrders.StatusReachesTheOrder | src/zq_arb/persistence/hedge_ledger.py:242-253 | a status becomes the state of an order and opens it, unless the order is settled for good |
| HedgeOrders.AcceptanceReachesTheOrder | src/zq_arb/persistence/hedge_ledger.py:214-236 | an acceptance under the order's own hash sets its state unless it is settled for good; another hash changes nothing |
| HedgeOrders.SubmissionReachesTheOrder | src/zq_arb/persistence/hedge_ledger.py:203-212 | a submission outcome reaches exactly an order whose outcome is awaited |
| BatchReports.FillIsRecordedExactlyWhen | src/zq_arb/persistence/repository.py:355-446 | a new fill of a known order is refused iff it is not positive or exceeds what the batch has left; otherwise execution, batch row and both dues, by saved ratios or as given, are recorded and nothing else |
| BatchReports.StatusReachesTheBatch | src/zq_arb/persistence/repository.py:448-489 | a status moves the order and its batch row unless the order ended and the status says it did not; the reported fill is the largest figure heard, FILLED without one meaning the whole order |
| BatchReports.MarkingReachesTheBatch | src/zq_arb/persistence/repository.py:334-353 | marking moves QUALIFIED, INTENT and INTENT on, each on its own, and no other row |
| BatchReports.CancelPendingReachesTheBatch | src/zq_arb/persistence/repository.py:513-543 | a batch is put up for cancelling once, with the reason given |
| BatchReports.AbandonmentEndsTheBatch | src/zq_arb/persistence/repository.py:311-332 | exactly an unsent intent is given up; its batch ends with nothing remaining |
| BatchRuns.FilledBatchStaysSized | src/zq_arb/persistence/repository.py:392-413 | one fill's two dues extend the rounded cumulative hedge of the batch exactly |
| BatchRuns.AbandonIsSafeExactlyWhenUnfilled | src/zq_arb/persistence/repository.py:311-332 | abandoning an intent keeps the COMPLETE invariant iff the batch has no obligation: a condition on the caller, which abandons only before it sends |
| LedgerLimits.AbandonedAfterAFill | src/zq_arb/persistence/repository.py:311-332 | a run of three transactions from the empty ledger, create, fill, abandon, that ends COMPLETE and not hedged |
| LedgerLimits.LateConfirmationIsExcess | src/zq_arb/persistence/hedge_ledger.py:362-372 | a CONFIRMED report for a fill the venue had FAILED, after the obligation was fully confirmed by others, puts exactly that fill in excess |
| LedgerLimits.LargerReportReopensExactlyWhen | src/zq_arb/persistence/repository.py:448-489 | a status transaction on any reachable ledger that reports a larger fill for a COMPLETE batch leaves it not caught up, and reopens it iff it has an obligation or a cancel reason |
| LedgerLimits.LateFillOfACompleteBatch | src/zq_arb/persistence/repository.py:448-489 | a run from the empty ledger that ends in such a batch: created, cancelled without a fill, cancelled with one |
| HonestVenue.RecordedWithinTrue | src/zq_arb/persistence/hedge_ledger.py:337-376 | under late, repeated and reordered reports, what is recorded on an order never exceeds what happened on it, in total and for failed fills |
| HonestVenue.BoundCoversExposure | src/zq_arb/persistence/hedge_ledger.py:286-309 | the bound the ledger keeps covers the true fills and what can still be filled of every order |
| NoOverHedge.ResolvedBoundIsExact | src/zq_arb/persistence/hedge_ledger.py:135-154 | with every order resolved that bound is exactly confirmed plus pending |
| NoOverHedge.RoomIsReal | src/zq_arb/persistence/hedge_ledger.py:147-154 | the room a new intent may use is not needed by any earlier order |
| NoOverHedge.StepKeeps | src/zq_arb/persistence/hedge_ledger.py:106-476 | every ledger transaction, venue fill, settlement, posting and closing keeps the bound |
| NoOverHedge.WorldIsNotOverHedged | src/zq_arb/persistence/hedge_ledger.py:444-476 | the bound leaves no obligation exposed past its due shares and shows no excess |
| NoOverHedge.NeverOverHedged | src/zq_arb/persistence/hedge_ledger.py:125-476 | after any run against an honest venue, abandonments included, fills that did not fail plus quantity still open or still to be posted never exceed the shares due, and EXCESS is unreachable |
| CallbackGap.CallbackWatch.ExpireGap | src/zq_arb/execution/coordinator.py:987-1000 | expiry happens once per gap and pauses and disarms |
| CallbackGap.CallbackWatch.FinishGap | src/zq_arb/execution/coordinator.py:1025-1044 | an open gap is closed with its deadline and expiry |
| CallbackGap.CallbackWatch.SumOf | src/zq_arb/execution/coordinator.py:965-966 | the loop sums the positions |
| CallbackGap.CallbackWatch.CapacityLeft | src/zq_arb/execution/coordinator.py:1099-1106 | the loop sums what the known orders may still add |
| CallbackGap.CallbackWatch.Observe | src/zq_arb/execution/coordinator.py:1052-1064 | a complete snapshot is observed as it is, else the live callbacks of a reconciled baseline, else nothing |
| CallbackGap.CallbackWatch.CollectDifferences | src/zq_arb/execution/coordinator.py:1071-1089 | exactly the four IBKR differences that hold |
| CallbackGap.CallbackWatch.CollectCandidates | src/zq_arb/execution/coordinator.py:1092-1111 | which of them a gap could explain |
| CallbackGap.CallbackWatch.MoveAnchor | src/zq_arb/execution/coordinator.py:1090-1091 | only a position equal to the ledger, with nothing outstanding, becomes the anchor |
| CallbackGap.CallbackWatch.OpenGap | src/zq_arb/execution/coordinator.py:1121-1151 | a gap opens only over a baseline, and an open one keeps its deadline |
| CallbackGap.CallbackWatch.ClassifyCallbacks | src/zq_arb/execution/coordinator.py:1046-1156 | the whole classification: differences, what is tolerated, and the watch after it |
| CallbackGap.CallbackWatch.HandlePosition | src/zq_arb/execution/coordinator.py:957-963 | a position callback replaces its contract in both books of positions |
| CallbackGap.CallbackWatch.ObserveOrder | src/zq_arb/execution/coordinator.py:878-883 | a finished order that reports unfinished is a terminal conflict until it reports finished |
| CallbackGap.CallbackWatch.BeginReconciliation | src/zq_arb/execution/coordinator.py:145-171 | raises after a refresh that timed out; otherwise a refresh starts unless one is running, remembers its request and forgets the earlier snapshot |
| CallbackGap.CallbackWatch.HandleMarker | src/zq_arb/execution/coordinator.py:390-421 | the end markers complete a snapshot, an execution end only if it answers the remembered request, and the last one completes the refresh |
| CallbackGap.CallbackWatch.FinishRefresh | src/zq_arb/execution/coordinator.py:410-421 | completion records the serial and keeps only conflicts of this refresh |
| CallbackGap.CallbackWatch.HandleDisconnect | src/zq_arb/execution/coordinator.py:354-370 | a lost connection forgets snapshot and anchor, not the gap |
| GapTheorems.DeadlineNeverMoves | src/zq_arb/execution/coordinator.py:987-1044 | over every run in which the gap stays open, its deadline is the one it opened with and an expiry is not undone |
| GapTheorems.NothingToleratedAfterTheDeadline | src/zq_arb/execution/coordinator.py:1048-1156 | no classification at or after that deadline, or after expiry, tolerates anything for the gap |
| GapTheorems.ExpiryLatches | src/zq_arb/execution/coordinator.py:972-1023 | after expiry the engine stays paused and disarmed over every run without an operator ARM, even if evidence agrees later |
| GapTheorems.ToleratedMismatchIsBounded | src/zq_arb/execution/coordinator.py:1090-1156 | a position mismatch is tolerated iff a gap is usable and the position is between anchor and ledger, or above the ledger by at most the known capacity with the ledger not below the anchor |
| CallbackEvidence.CheckReportsExactly | src/zq_arb/execution/coordinator.py:1052-1089 | a check reports unrecorded fills, an unconfirmed completion, a terminal conflict or a position mismatch iff some order row, disputed id or position shows it, nothing without a position to go by, and closes the gap when it finds none |
| CallbackEvidence.OtherDifferencesAreTolerated | src/zq_arb/execution/coordinator.py:1092-1156 | a difference other than the position is tolerated iff a gap may be used over a baseline and, for a conflict, no whole refresh has shown it again |
| CallbackEvidence.GapOpensExactlyWhen | src/zq_arb/execution/coordinator.py:1092-1143 | a gap opens iff, over a baseline, a check finds something a known order can explain; its deadline is the settling time from then, and it counts from the last whole read |
| CallbackEvidence.BaselineFollows | src/zq_arb/execution/coordinator.py:1090-1091 | a check moves the baseline iff there is one, the position equals the ledger and no report is ahead |
| CallbackEvidence.ConflictIsTheLastWord | src/zq_arb/execution/coordinator.py:878-883 | over every run between two completed refreshes, an order is in conflict iff the last status to dispute or settle it disputes it |
| CallbackEvidence.CompletionKeepsFreshConflicts | src/zq_arb/execution/coordinator.py:410-421 | a refresh that completes leaves in conflict exactly the orders disputed while it was under way |
| CallbackEvidence.RefreshReadsAnew | src/zq_arb/execution/coordinator.py:145-171 | a refresh holds, per contract, the last position reported since it began and none from before |
| CallbackEvidence.PositionEndReplacesCallbacks | src/zq_arb/execution/coordinator.py:390-421 | when its positions have ended, the live callbacks go on from them, without what was not reported again |
| CallbackEvidence.SecondReadEndsGrace | src/zq_arb/execution/coordinator.py:1152-1155 | once a whole read begun after a gap opened completes, the gap tolerates nothing more |
| CallbackEvidence.CleanCheckRebases | src/zq_arb/execution/coordinator.py:1342-1346 | a clean check over a whole snapshot makes ledger and snapshot the new baseline |
| CallbackEvidence.NothingToleratedAfterDisconnect | src/zq_arb/execution/coordinator.py:354-370 | after a lost connection, over every run until a whole snapshot is checked clean, only a whole snapshot is gone by, no mismatch is tolerated and no gap opens |
| CallbackEvidence.SnapshotIsReadAnew | src/zq_arb/execution/coordinator.py:354-370 | and a snapshot is whole again only after each of its four parts has ended anew |
| HonestRace.StepKeepsRace | src/zq_arb/execution/coordinator.py:334-424 | for any number of orders: every fill, callback, marker, disconnect, check, watchdog, and every order recorded, sent, marked or given up keeps what ties the evidence to the true fills |
| HonestRace.StepKeepsMarking | src/zq_arb/execution/coordinator.py:681-690 | unless a marking fails, only the order whose marking waits is sent and unmarked, and none of its fills is shown before the handler runs |
| HonestRace.RestartIsHonest | src/zq_arb/execution/coordinator.py:136-143 | an engine that starts over any ledger and any truth within the orders' sizes, reports and ends is such a baseline |
| HonestRace.CapacityCoversTheFills | src/zq_arb/execution/coordinator.py:1099-1106 | what is filled and not yet executed in the ledger, unmarked orders aside, is within the capacity of the known orders |
| HonestRace.HonestRaceIsNeverUnsafe | src/zq_arb/execution/coordinator.py:1046-1156 | from any baseline, over every interleaving of honest callbacks, fills, sends, disconnects and refreshes, fills between a send and its marking included: at any check, once there is an anchor, before the deadline and before a fresh read completes, no fill, position or completion difference is unsafe, unless a marking failed |
| HonestRace.ApartKeepsTheGapOpen | src/zq_arb/execution/coordinator.py:1046-1156 | while position and executions disagree, or a status reports more than was executed, every check leaves the gap open |
| HonestRace.AheadIsToleratedExactlyWhen | src/zq_arb/execution/coordinator.py:1099-1111 | a position ahead of the executions is tolerated iff the one unsettled order has left INTENT and is not finished, or a status already reported more than was executed |
| HonestRace.FillOfAnIntentIsUnsafe | src/zq_arb/execution/coordinator.py:681-690 | a run from the start in which the marking of a sent order fails: the order fills while the ledger keeps it INTENT, and the position mismatch comes out unsafe |
| HonestRace.UpsertMovesTheTotal | src/zq_arb/execution/coordinator.py:944-966 | a position callback moves the total by the change of its contract only |
| HonestRace.CapacityIsTheWorkingOrders | src/zq_arb/execution/coordinator.py:1099-1106 | settled orders lend no capacity |
| LedgerProgress.FillMovesProgress | src/zq_arb/persistence/repository.py:368-413 | a fill report moves the progress the coordinator reads exactly as the race assumes |
| LedgerProgress.StatusMovesProgress | src/zq_arb/persistence/repository.py:457-511 | so does a status report, and it answers with the state the ledger kept |
| LedgerProgress.MarkingMovesProgress | src/zq_arb/persistence/repository.py:334-353 | so does marking: an intent becomes submitted, any other progress stays, and only an unknown batch raises |
| LedgerProgress.NewIntentAddsProgress | src/zq_arb/persistence/repository.py:111-174 | a new entry adds the progress of an unsent intent and touches no other |
| LedgerProgress.AbandonmentMovesProgress | src/zq_arb/persistence/repository.py:311-332 | an abandonment ends exactly an unsent intent as ABORTED |
| LedgerProgress.LedgerQuantityIsExecuted | src/zq_arb/persistence/repository.py:185-220 | the ZQ quantity compared with the venue equals the executed progress of all orders: no fill lost or counted twice |
| RaceGate.NoEntryWhileApart | src/zq_arb/execution/coordinator.py:1910-1946 | gate and race as one machine, started over any ledger, against an honest venue, in every state of every interleaving, the window between a callback and its check and fills between a send and its marking included: while position and executions disagree or a status reports more than was executed, no entry is authorised outside manual simulation |
| RaceGate.NothingSentWhileApart | src/zq_arb/execution/coordinator.py:671-687 | nor is an order sent: a send finds position and executions together, the recorded revision current, and the ledger of the authorisation plus its own intent alone |
| RaceGate.EntryFindsPositionsEqual | src/zq_arb/execution/coordinator.py:334-470 | whatever the venue reports: an entry authorised on the venues' own evidence finds the positions read equal to the ledger, no order reporting more than it executed, no gap open and no refresh under way |
| RaceGate.StepKeepsRevision | src/zq_arb/execution/coordinator.py:358-385 | the recorded venue revision is the current one only while nothing arrived since a clean read: every callback moves the revision before it takes effect |
| RaceGate.EngineRunIsGateRun | src/zq_arb/execution/coordinator.py:448-470 | every run of the joint machine is a run of the gate, so what is proved of sends holds in it |
| RaceGate.EntryIsReachable | src/zq_arb/execution/coordinator.py:1342-1346 | a run in which one clean read of the account does lead to an authorised entry |
| RaceGate.DisagreementBarsEntry | src/zq_arb/execution/coordinator.py:1046-1216 | after a reconciliation that finds any IBKR difference, a gate that shows the gap, the pause and the arming of the watch authorises no entry |
| EntryGate.StepKeepsGate | src/zq_arb/execution/coordinator.py:448-704 | what the submitter remembers of ledger and snapshot stays true of them over every interleaving at awaits |
| EntryGate.SendIsFresh | src/zq_arb/execution/coordinator.py:627-687 | outside manual simulation an order is sent only on the snapshot its opportunity came from, field for field, on the recorded venue revision, and on the ledger authorised at entry followed by this batch's own intent alone |
| EntryGate.SendsExactlyWhen | src/zq_arb/execution/coordinator.py:668-687 | over every interleaving the last check sends iff the page is armed, unpaused, without kill switch, clean, without unresolved hedge or open deficit, no maintenance, gap, refresh, ambiguity or halt holds, routing is enabled, no event was lost, and page, venue revision and ledger are those of the entry |
| EntryGate.SendFindsEverythingOpen | src/zq_arb/execution/coordinator.py:1910-1946 | every send finds each of these fields open |
| EntryGate.EntryBeginsExactlyWhen | src/zq_arb/execution/coordinator.py:1910-1946 | an entry begins iff nobody is entering, the same fields are open, and the last clean read judged the current ledger and venue revision, manual simulation aside |
| EntryGate.NothingWhileBarred | src/zq_arb/execution/coordinator.py:1910-1946 | from a snapshot published disarmed, paused or killed on, no entry begins and no order is sent before one that is none of these is published |
| EntryGate.NothingWhileHeld | src/zq_arb/execution/coordinator.py:1910-1946 | the same for a hold of the coordinator, until the holds are lifted |
| EntryGate.EveryIntentIsAccountedFor | src/zq_arb/execution/coordinator.py:655-704 | over every run each intent recorded is sent once or abandoned once, but for the one the submitter is deciding on |
| EntryGate.VerdictEndsAttestation | src/zq_arb/execution/coordinator.py:1290-1346 | the manual attestation ends with the next verdict, and only attesting again brings it back |
| EntryGate.SentLedgerIsJudgedPlusIntent | src/zq_arb/execution/coordinator.py:464-687 | from entry to send: a sent order finds the ledger a clean reconciliation had read when entry was authorised, and its own intent on top |
| EntryGate.OtherCommitAborts | src/zq_arb/execution/coordinator.py:671-680 | any other ledger commit in between leads to an abandoned intent and no send |
| EntryGate.AuthorisedOnTheJudgedLedger | src/zq_arb/execution/coordinator.py:1342-1346 | the ledger entry is authorised on is the one the last clean reconciliation read |
| EntryGate.RecordedIsJudged | src/zq_arb/execution/coordinator.py:1290-1346 | over every run the recorded venue revision is one that a reconciliation judged clean: between judgement and record nothing suspends |
| EntryGate.SendIsOnJudgedEvidence | src/zq_arb/execution/coordinator.py:1158-1346 | over every run, from the beginning of the clean read a send rests on, over its verdict, to the send itself, no IBKR evidence arrived and no Polymarket state was invalidated |
| EntryGate.StepKeepsLedger | src/zq_arb/persistence/database.py:152-191 | commits only append, one revision each |
| DepthWalk.SortedSorts | src/zq_arb/analytics/payoff.py:123 | the levels are walked in ascending price, none lost |
| DepthWalk.WalkAsks | src/zq_arb/analytics/payoff.py:111-147 | raises on a request that is not positive, otherwise the loop computes the specified walk |
| DepthWalk.WalkFills | src/zq_arb/analytics/payoff.py:111-147 | filled is the smaller of the request and the depth inside the cap, fills rise strictly in price, sizes and costs add up, the last price is the worst price, sufficient iff there is depth |
| DepthWalk.WalkStaysInsideTheCap | src/zq_arb/analytics/payoff.py:111-147 | under a cap the walk fills the request or all that is on offer at or below the cap, is sufficient iff that covers the request, and pays no price above it |
| DepthWalk.WalkAverages | src/zq_arb/analytics/payoff.py:136-147 | the average price times the filled shares is the total cost, and unknown iff nothing is filled |
| DepthWalk.WalkBuysOffers | src/zq_arb/analytics/payoff.py:123-135 | every fill buys a positive size at a price some level offers inside the cap |
| DepthWalk.NoCheaperAllocation | src/zq_arb/analytics/payoff.py:111-147 | no allocation of the filled quantity over levels inside the cap costs less |
| DepthWalk.WalkIsAnAllocation | src/zq_arb/analytics/payoff.py:111-147 | and the walk is such an allocation |
| DepthWalk.AllocationBound | src/zq_arb/analytics/payoff.py:111-147 | for any common price, no allocation saves more than all that is offered below it |
| EntryPlan.LimitIsLowestAskOrOneTick | src/zq_arb/analytics/payoff.py:150-187 | the limit is the lowest ask, or exactly one tick above where that is allowed, positive, inside the hard cap, above every bid, and a price on offer |
| EntryPlan.PlanIsSufficientExactlyWhen | src/zq_arb/analytics/payoff.py:160-187 | over a marketable lowest ask a plan offers exactly what the book offers there and, where allowed and inside the cap, one tick up, under that price as its cap; it is sufficient iff that covers the request |
| EntryPlan.PlanBuysTheLowestFirst | src/zq_arb/analytics/payoff.py:160-187 | it buys what the lowest ask offers first and only the rest one tick up, at those prices |
| EntryPlan.PlanBuysAtTheLowest | src/zq_arb/analytics/payoff.py:160-187 | where one tick up is not allowed every share costs the lowest ask |
| EntryPlan.NoPlanWithoutALimit | src/zq_arb/analytics/payoff.py:150-187 | without a positive lowest ask inside the cap and above every bid a plan offers nothing |
| EntryPlan.EmergencyIsNoDearer | src/zq_arb/analytics/payoff.py:226-231 | a sufficient entry plan inside the emergency cap makes the emergency walk sufficient and no dearer |
| Settlement.SettlementIsNearest | src/zq_arb/analytics/probability.py:41-52 | settlement is within 0.0005 of exact, a tie rounding the rate up |
| Settlement.AverageIsTheDailyMean | src/zq_arb/analytics/probability.py:40-46 | the average rate is the mean of the daily rates of the month, the effective day already at the moved rate |
| Settlement.NearestIsUnique | src/zq_arb/analytics/probability.py:47-52 | it is the only multiple of 0.001 that near |
| Settlement.SettlementFallsWithTheMove | src/zq_arb/analytics/probability.py:28-52 | settlement is non-increasing in the move |
| Settlement.RatioTakesTwoValues | src/zq_arb/analytics/payoff.py:79-99 | over all EFFRs a move needs one of two sizes 4.167 apart, each strictly within 4.167 of the legacy size |
| Settlement.RatioIsPositive | src/zq_arb/analytics/payoff.py:87-89 | the approved moves always need a positive size |
| Settlement.LegacyIsExact | src/zq_arb/analytics/payoff.py:92-99 | the legacy size is the unrounded settlement difference at the futures point value |
| ThreeState.ScenarioMatrix | src/zq_arb/analytics/payoff.py:340-380 | the loop makes one scenario per approved move |
| ThreeState.BuildThreeStateOpportunity | src/zq_arb/analytics/payoff.py:213-397 | errors, the depth gates and the three minima, for saved or own ratios and any prior fills |
| ThreeState.StatesDifferByRounding | src/zq_arb/analytics/payoff.py:345-377 | each increase state beats no-change by exactly the change of the cumulative over-hedge, within a cent either way |
| ThreeState.NoChangeIsTheMinimum | src/zq_arb/analytics/payoff.py:389-397 | with own ratios and no earlier fills the 0 bp state is the minimum and the others exceed it by at least 0 and less than 0.01 |
| ThreeState.MinimumIsPassive | src/zq_arb/analytics/payoff.py:322-397 | with the hard cap inside the emergency cap, only the entry plans decide availability and the reported minimum is the passive one |
| ThreeState.PricedExactlyWhen | src/zq_arb/analytics/payoff.py:213-331 | an opportunity is refused iff the contracts, a ratio or a size is not positive, and priced iff both entry plans suffice and the asks up to the emergency cap cover both legs |
| ThreeState.ExplicitCostsCostThemselves | src/zq_arb/analytics/payoff.py:374-376 | a dollar more of commission or fees costs a dollar in every state |
| ThreeState.HedgesCostThemselves | src/zq_arb/analytics/payoff.py:350-353 | so does a dollar more for either hedge |
| ThreeState.DearerEntryCostsThePoints | src/zq_arb/analytics/payoff.py:346-348 | a dearer futures entry costs contracts times 4167 times the rise in every state |
| ThreeState.SharesPayInTheirState | src/zq_arb/analytics/payoff.py:190-194 | a share more of a leg pays a dollar in the state of the leg and nothing in the others |
| ThreeState.FlatTradeEarnsNothing | src/zq_arb/analytics/payoff.py:345-376 | the anchor: without shares and costs, futures that settle where they were bought earn nothing |
| ThreeState.NetIsGrossLessCosts | src/zq_arb/analytics/payoff.py:349-376 | per state: gross is futures plus both legs, net is gross less commission and fees, and unknown iff the fees are |
| ThreeState.LegsCarryTheirOwnCosts | src/zq_arb/analytics/payoff.py:350-353 | the passive matrix charges each leg its own entry plan and the emergency matrix its own walk up to the emergency cap, against a dollar a share in the leg's state |
| ThreeState.MinimumIsTheLeastNet | src/zq_arb/analytics/payoff.py:384-397 | the reported minimum is the least net result of both matrices, attained by one of them, and unknown iff the fees are |
| ThreeState.MinimumFallsByTheCosts | src/zq_arb/analytics/payoff.py:213-397 | through books, plans and matrices, all three reported minima fall by exactly what commission, fees and futures entry cost more |
| BatchMachine.BatchMachine.Transit | src/zq_arb/execution/state_machine.py:94-99 | a transition outside the table changes nothing, one inside is recorded |
| BatchMachine.BatchMachine.RecordZqExecution | src/zq_arb/execution/state_machine.py:101-128 | raises, ignores a duplicate, or counts the fill and returns its two dues |
| BatchMachine.RunKeepsMachine | src/zq_arb/execution/state_machine.py:94-128 | over every run the history is a path of allowed transitions from idle to the current state |
| BatchMachine.MachineDuesTelescope | src/zq_arb/execution/state_machine.py:113-128 | over every run the dues of a leg add up to the rounded whole |
| BatchMachine.FillIsCountedExactlyWhen | src/zq_arb/execution/state_machine.py:101-128 | a fill counts iff it is positive, new and fits; it then moves a submitted batch to PARTIAL and no other anywhere |
| BatchMachine.HistoryIsOrderly | src/zq_arb/execution/state_machine.py:18-99 | over every run a batch completes only from a submission, a cancellation or a full hedge, and leaves a halt only to recovery |
| BatchMachine.TwinsAgree | src/zq_arb/execution/state_machine.py:101-128 | on every positive fill report whose execution id no other batch of the ledger used, machine and ledger both refuse, both ignore, or create the same dues |
| FedWatch.NextContractMonth | src/zq_arb/domain/calendar.py:48-50 | the month that follows, year by year |
| FedWatch.MonthsThrough | src/zq_arb/analytics/probability.py:241-245 | the loop stops at the anchor, having listed every month after the target once |
| FedWatch.BackOut | src/zq_arb/analytics/probability.py:253-262 | the reversed loop computes the backward recursion |
| FedWatch.FedWatchReference | src/zq_arb/analytics/probability.py:223-286 | errors in the order of the code, waiting for quotes, or the diagnostic with its two outcomes |
| FedWatch.PostRateInverts | src/zq_arb/analytics/probability.py:253-262 | the recursion inverts the forward model for any months and changes |
| FedWatch.ReferenceFindsThePostRate | src/zq_arb/analytics/probability.py:253-269 | quotes generated by any rate path give back exactly the post-target rate, with no residual |
| FedWatch.AdjacentOutcomesAreADistribution | src/zq_arb/analytics/probability.py:81-113 | inside the modelled range two neighbouring buckets carry probabilities that add to one, over all five buckets too, and average to the move; outside, none |
| FedWatch.ResidualIsTheMisfit | src/zq_arb/analytics/probability.py:263-286 | whatever the quotes, the residual is the target month's quoted average less the average of the inferred path, in basis points |
| FedWatch.InfersExactlyWhen | src/zq_arb/analytics/probability.py:238-252 | a result is inferred iff the anchor follows the target, every month from target to anchor has its quote, and each dated month is named once, lies strictly between them and changes after its first day; missing quotes are awaited and any other calendar refused |
| BookLadder.PutIsUpdate | src/zq_arb/adapters/polymarket.py:235-238 | setting a price is a map update of the side |
| BookLadder.PopIsRemoval | src/zq_arb/adapters/polymarket.py:235-236 | size zero deletes the price |
| BookLadder.DictOfIsTheMap | src/zq_arb/adapters/polymarket.py:230-233 | of several levels at one price the last stands |
| BookLadder.LadderIsTheMap | src/zq_arb/adapters/polymarket.py:251-254 | an edited side is rendered strictly best price first, and read back is the same map |
| BookLadder.SideSortedKeepsLevels | src/zq_arb/adapters/polymarket.py:112-116 | any rendered side is a permutation of its levels, best price first, on which the last level of a price stands |
| BookStream.UpdateBooksFromStreamEvent | src/zq_arb/adapters/polymarket.py:141-276 | every event kind: the books it makes, a protocol error, or the failure of a snapshot level that is not finite |
| BookStream.ParseLevels | src/zq_arb/adapters/polymarket.py:105-116 | the loop over the levels of a snapshot: skipped, kept, or raising on a NaN or infinite number |
| BookStream.EditChanges | src/zq_arb/adapters/polymarket.py:200-239 | the loop edits copies of the touched sides and stops at the first invalid element |
| BookStream.CommitEdits | src/zq_arb/adapters/polymarket.py:240-256 | the touched books are made and validated only at the end |
| BookStream.EditedSideIsReplayed | src/zq_arb/adapters/polymarket.py:230-254 | each touched side is the old map with the changes applied left to right |
| BookStream.BatchIsAMapUpdate | src/zq_arb/adapters/polymarket.py:196-256 | an accepted batch makes one valid book per touched token, each side a map update; intermediate crossings do not matter |
| BookStream.BatchIsAcceptedExactlyWhen | src/zq_arb/adapters/polymarket.py:130-138 | a batch is accepted iff every element is valid and every book it would make is |
| BookStream.BatchStampsItsBooks | src/zq_arb/adapters/polymarket.py:239-256 | a batch stamps every book it makes with its time and the hash of the last change on the token, or the book's own, and leaves the tick |
| BookStream.TickChangeIsApplied | src/zq_arb/adapters/polymarket.py:258-274 | a tick-size change is applied iff the book is known and the tick positive, and changes nothing else |
| Snapshots.KeptInOrder | src/zq_arb/adapters/polymarket.py:105-116 | the levels kept of a snapshot are, in order, exactly the raw entries with finite positive price and size, each with its own price and size |
| Snapshots.RenderedSide | src/zq_arb/adapters/polymarket.py:105-116 | a rendered side is a permutation of those entries, best price first, and as a map the last entry of a price stands |
| Snapshots.SnapshotIsAcceptedExactlyWhen | src/zq_arb/adapters/polymarket.py:147-190 | a snapshot is accepted iff it names a token, every entry can be compared, usable prices are below one and every usable bid is below every usable ask |
| Snapshots.SnapshotHoldsItsEntries | src/zq_arb/adapters/polymarket.py:147-190 | its one book is flagged and holds the usable entries of each side, with the event's hash, time and tick |
| BookRuns.BookStore.ApplyPolymarketEvent | src/zq_arb/services/state.py:959-977 | all books of an event are stored, or none and the reason is raised |
| BookRuns.BookStore.MarkUnsynchronized | src/zq_arb/services/state.py:253-261 | every flag is cleared and no ladder changes |
| BookRuns.BookStore.ReconcilePolymarketBooks | src/zq_arb/services/state.py:263-310 | the loop over REST books and the mismatches it reports |
| BookRuns.ReplayIsFlat | src/zq_arb/adapters/polymarket.py:196-256 | the replayed side is the map of the raw snapshot entries with every change applied one by one: where batches are cut does not matter |
| BookRuns.SynchronizedIsExactReplay | src/zq_arb/services/engine.py:289-310 | in every reachable state a synchronised book has the ladders of the last applied snapshot with every later applied batch folded in |
| BookRuns.FailureLeadsToReset | src/zq_arb/services/engine.py:302-310 | over every run, from the move that rejects an event to the processor's return to its queue: nothing is applied, every ladder is the one before or a REST one, every flag is cleared at some move and none comes back, and a new stream is asked for |
| BookRuns.FlagsStayCleared | src/zq_arb/services/engine.py:302-310 | no flag comes back and no event is applied before a new stream is asked for |
| BookRuns.RestNeverSynchronizes | src/zq_arb/services/state.py:263-310 | a REST read never sets a flag |
| BookRuns.RestVerdict | src/zq_arb/services/state.py:263-310 | a flagged book loses its flag and is reported iff some REST book of the token has another hash or none, another ladder and no older timestamp; otherwise only its tick follows |
| BookRuns.ContradictedKeepsItsLadders | src/zq_arb/services/state.py:263-310 | a book the last REST book of its token contradicts keeps its own ladders, hash and timestamp, unflagged |
| BookRuns.UnflaggedTakesTheRestBook | src/zq_arb/services/state.py:263-310 | a token without a flagged book takes the last REST book read for it, unflagged |
| BookRuns.MismatchLeadsToReset | src/zq_arb/services/engine.py:562-570 | over every run such a read takes the flag away and a new stream is asked for before REST books are read again |
| BookRuns.AppliesExactlyWhen | src/zq_arb/services/engine.py:289-310 | over every run an event is applied iff the processor takes it from the stream current after all restarts so far, no new stream is awaited, and the books accept it |
| BookRuns.SynchronizedIsOneGeneration | src/zq_arb/services/engine.py:678-703 | over every run, across any restarts, the snapshot behind a synchronised book and every batch folded into it since came from the current stream |
| Ingress.IngressBuffer.AdmitLocked | src/zq_arb/adapters/ibkr.py:479-489 | what an emit does under the lock, and whether it must wake the loop |
| Ingress.IngressBuffer.DrainIngress | src/zq_arb/adapters/ibkr.py:508-531 | the bounded loop, and whether the drain schedules itself again |
| Ingress.DrainIsFifo | src/zq_arb/adapters/ibkr.py:516-524 | a drain takes from the front only, in order, and stops after 64, at an empty buffer or at a full queue |
| Ingress.IngressIsLosslessFifo | src/zq_arb/adapters/ibkr.py:454-531 | over every interleaving the queue got the accepted events in order less those retired at a drain, every received event is queued, lost, pending or retired, and exactly a loss is flagged |
| Ingress.VerdictIsTheRequest | src/zq_arb/adapters/ibkr.py:516-524 | an event is retired at a drain iff it is market data for a request no longer current |
| Ingress.NonEmptyHasADrain | src/zq_arb/adapters/ibkr.py:485-490 | a non-empty buffer always has exactly one drain on its way |
| Ingress.OverflowIsSticky | src/zq_arb/adapters/ibkr.py:481-484 | the overflow flag never clears |
| Ingress.DrainGetsOn | src/zq_arb/adapters/ibkr.py:516-531 | with room on the queue a drain empties the buffer, takes a full batch or fills the queue |

## Left out

- Simulation mode (`simulate_polymarket_fills`), signed payload contents and execution-environment checks: the ledger is modelled as it runs against real venues.
- Spelling of statuses (prefixes, CANCELED for CANCELLED, case) and parsing of decimals: statuses are datatypes, a number that does not parse is None; NaN and infinities are modelled in the levels of a book snapshot only, a tick size is finite or absent.
- The 28-digit decimal context: arithmetic is exact.
- Venue receipts, opening inventory matching, foreign orders, other contract months and identity conflicts: own orders of one month, with an arbitrary opening quantity.
- Audit rows, alerts, timestamps, JSON details other than those named, margin, fees per level and committed capital.
- Timeouts of an IBKR refresh: an ambiguous refresh is an input of entry authorisation; the maintenance hold, too, is a boolean.
- A ledger commit counts from the moment its revision is counted; the time between its durable write and that count, during which it holds the transaction lock, is not a separate state.
- Disconnecting and stopping the IBKR adapter, the high-water mark and the direct `_enqueue` path: `Ingress` is about one connection. The tick-type filter runs before admission and has its own counter.
- The generation check of the REST loop: REST reads are allowed at any time, which is more than the engine does.
- Hedge routing beyond the ledger (`_route_one_hedge` and its repricing): the over-hedge theorem holds for any caller of the ledger, so for this one.
- A contract month after 9999-12, where the text order of months breaks and the month loop would not stop.
- `RiskEngine.qualify`, quote qualification, portfolio marking, the dashboard and deployment: conjunctions, straight-line formulas or I/O.
- Collisions of an IBKR and a Polymarket idempotency key in one table: the two kinds of order are separate tables here.
- FedWatch.FedWatchReference: takes the anchor as a valid contract month, as the configuration validates it.
- EntryGate.SendIsFresh: says nothing of the manual-simulation exemption, which skips both revision checks by design.
- BookStream.UpdateBooksFromStreamEvent: leaves out book metadata (market, minimum size, negative risk, source, receipt and reconciliation times), which no branch reads.
- ThreeState.BuildThreeStateOpportunity: leaves out the texts and codes of the gates, figures copied into the result, the margin requirement and committed capital.
- RaceGate.NoEntryWhileApart: says nothing of the manual-simulation exemption; an abandonment that finds the order no longer an intent raises in the source and is not a move here.
