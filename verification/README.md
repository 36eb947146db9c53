# Durable command protocols of a warehouse platform

A Dafny model of the protocols that decide whether a physical action happens twice, once or not at all:

* the **edge agent** (`Edge*.dfy`, `Backoff.dfy`), which queues device commands in a local database, leases them to
  one runner, and recovers them after crashes, lost leases and unknown outcomes;
* the **handheld's command store** (`Rf*.dfy`), which keeps one unresolved command per device and its dispatch attempts;
* the **lease monitor** (`LeaseMonitor.dfy`) and the server it talks to (`LeaseServer.dfy`, `LeaseLimits.dfy`);
* the handheld's **workflows** (`DurableLane.dfy`, `MovementWorkflow.dfy`, `ReplenishmentWorkflow.dfy`,
  `OutboundLoads.dfy`, `OutboundWorkflow.dfy`), which collect scans and put one command at a time under way.

## How it is built

Each database is a value (`Tables`, `Db`); each public operation has a function giving the tables it commits, or the
error that leaves them alone. The stores are classes whose methods build the new tables statement by statement, with
the loops of the source, and are proved equal to those functions; loops over query results are proved for every order
of the rows. Invariants are proved for each transaction and then for every run:

* `EdgeCommandInvariant` - one command: lease, attempts, transition log, payload, recovery history;
* `EdgeInvariant` - all tables, plus `Evolves`, the relation between any two moments of a run;
* `EdgeRecovery` - recovering leases one row at a time equals recovering them at once;
* `EdgeRuns` - every interleaving of transactions from an empty database;
* `EdgeOutcomes`, `EdgeDecision` - each transaction and each decision in terms of the stored columns and the adapter's
  answers alone, with the exact conditions;
* `EdgeWaiting`, `EdgeWaitingLimits` - every run waits for the time a command was put off to, as far as its clock moves
  on;
* `EdgeSettlement` - what claiming, ending a claim, recovery and other people's transactions do to the counts of a pass;
* `EdgeWorld`, `EdgeWorldLimits` - runner, operators, crashes and device together, with a count of physical acceptances;
* `EdgeEngine` - one pass of the runner, with other processes committing between its transactions, shown to continue a
  history of `EdgeWorld`;
* `RfCommandRuns` - every run of the handheld's store, reopening included;
* `RfOutcomes` - its transactions in terms of the stored columns;
* `LeaseServer`, `LeaseLimits` - monitor, network and server, with lost, late, repeated and reordered messages.

Main results: `EdgeWorld.EffectsWithinOperatorRetries` with `AtMostOnePhysicalEffect`,
`LeaseServer.LeaseIsNeverOptimistic`, `EdgeEngine.EdgeEngine.RunOnce`, `EdgeStore.EdgeStore.RecoverExpiredLeases`, the
run theorems of `EdgeRuns`, `RfCommandRuns.AttemptsShareServerAndRequest` and `ReopeningIsClean`,
`OutboundLoads.OutcomeAgreesWithRecount`, and the histories of the two scan workflows: every command `Justified` by its
scans, and no movement command dropped or altered before its answer (`EveryCommandKept`).

Properties that do not hold as stated, with the exact condition:

* At most one physical effect holds for commands no operator sent back to the queue; in general a command takes effect
  at most once more often than it was sent back (`EdgeWorld.EffectsWithinOperatorRetries`), and that many times can
  happen for every number of retries the attempt counter has room for (`EdgeWorldLimits.EveryRetryMayActAgain`).
* A callback of a heartbeat attempt that is over is accepted again exactly for the largest 64-bit id
  (`LeaseMonitor.LateCallbackTakenExactlyWhen`). A run from a newly anchored monitor reaches that id, and a late answer
  there pushes the local deadline past the server's (`LeaseLimits.SaturatedIdsMakeTheLeaseOptimistic`).
* A command put off to a later time is never claimed before it by its next claim, nor by any later one while the clock
  does not go back between claims (`EdgeWaiting.BackoffIsHonoured`); if it goes back after a try, a later claim can come
  before the first time (`EdgeWaitingLimits.ClockGoingBackClaimsEarly`).
* The outbound counters equal a recount exactly when no other carton carrying the moved id is elsewhere
  (`OutboundLoads.OutcomeAgreesWithRecount`); with a duplicate id they can differ (`DuplicateIdsBreakTheCount`).
* A replenishment release looks at the claim only, so it can replace a command under way
  (`ReplenishmentWorkflow.ReleaseDropsAConfirmationInFlight`); `ReleaseKeepsLaneExactlyWhen` says when it does not.

Identifiers, opaque payloads and hashes are numbers or strings compared for equality; a fresh-identifier supply stands
for random UUIDs; the clock, the adapters' answers and what other processes commit inside a pass are parameters. Store
times are milliseconds, engine and lease times nanoseconds. The acceptance contract in `EdgeWorld.Contract` is what
the adapter documentation promises (apps/edge-agent/src/adapter.rs:17-46), and one runner per store is what
docs/operations/edge-agent.md asks for; operators may act at any moment. An attempt of the handheld's store carries
one extra note, the server URL of the profile when it began, so that "same server" can be stated. The scan workflows
carry ghost histories: the scans accepted for the current claim, every command emitted and, for movements, every
command answered.

## Model

| member | source | states |
|---|---|---|
| EdgeStore.AbandonActiveAttempt | apps/edge-agent/src/store.rs:1706-1726 | closes the active attempt, succeeding exactly when there is one and only one |
| EdgeStore.TransitionLeasedWithoutToken | apps/edge-agent/src/store.rs:1669-1704 | takes an executing row's lease away and logs it; refuses any other state |
| EdgeStore.TransitionUnleased | apps/edge-agent/src/store.rs:1622-1667 | moves an unleased row from the state the caller saw, exactly then |
| EdgeStore.QuarantineDeviceCommands | apps/edge-agent/src/store.rs:1728-1781 | the row-by-row sweep equals quarantining the device at once, and fails exactly on a row without one active attempt or with a stray lease |
| EdgeStore.UpdateDeviceMode | apps/edge-agent/src/store.rs:1783-1828 | sets the mode and appends the matching control event |
| EdgeStore.ForceManualFallback | apps/edge-agent/src/store.rs:1830-1852 | sweeps the device and drops it to manual fallback once; fails exactly without the device or on a live row the sweep cannot move |
| EdgeStore.NextCandidate | apps/edge-agent/src/store.rs:1015-1044 | finds the least eligible row by (next attempt, created, id), or proves none is eligible |
| EdgeStore.ExistingSubmission | apps/edge-agent/src/store.rs:1562-1593 | replay exactly for the identical request as sole identity candidate, conflict for any other overlap |
| EdgeStore.LeaseRow | apps/edge-agent/src/store.rs:1046-1128 | builds lease, attempt and log entry together; fails exactly when a counter leaves 32 bits |
| EdgeStore.ClaimRow | apps/edge-agent/src/store.rs:1015-1128 | leases the first row of the claim query, or none when nothing is eligible |
| EdgeStore.Grant | apps/edge-agent/src/store.rs:1001-1131 | the tables and the claim a claim transaction commits, or exactly why it cannot |
| EdgeStore.RecoverAll | apps/edge-agent/src/store.rs:923-999 | the recovery loop always succeeds, equals recovering every expired lease at once, and counts per policy |
| EdgeStore.RecoverRow | apps/edge-agent/src/store.rs:978-995 | one turn of that loop, device fallback included; fails exactly on a row that cannot be recovered |
| EdgeStore.RecoveryStep | apps/edge-agent/src/store.rs:923-999 | whatever was recovered before, the next expired row is untouched, recoverable and adds one to its counter |
| EdgeStore.PolicyPartition | apps/edge-agent/src/store.rs:955-977 | the three counters add up to the expired commands |
| EdgeStore.EdgeStore.constructor | apps/edge-agent/src/store.rs:228-272 | an empty database satisfies the invariant |
| EdgeStore.EdgeStore.RegisterDevice | apps/edge-agent/src/store.rs:274-340 | registers disabled, repeats identically, refuses a different descriptor |
| EdgeStore.EdgeStore.ChangeControlMode | apps/edge-agent/src/store.rs:367-393 | mode change with its sweep as one transaction |
| EdgeStore.EdgeStore.RecordHeartbeat | apps/edge-agent/src/store.rs:395-459 | stores health; failures reset on workable health, else saturate; returns the stored device |
| EdgeStore.EdgeStore.Submit | apps/edge-agent/src/store.rs:492-600 | accept, replay or refuse, with nothing changed unless accepted |
| EdgeStore.OperatorTransition | apps/edge-agent/src/store.rs:880-921 | operator moves only from the allowed states and without a lease, whatever the target |
| EdgeStore.EdgeStore.ResolveManually | apps/edge-agent/src/store.rs:790-806 | resolution only from manual review |
| EdgeStore.EdgeStore.CancelCommand | apps/edge-agent/src/store.rs:808-829 | cancellation from every non-terminal, unleased state |
| EdgeStore.EdgeStore.RetryAfterReview | apps/edge-agent/src/store.rs:831-878 | requeues a reviewed command only on an automatic device; returns the stored record |
| EdgeStore.EdgeStore.RecoverExpiredLeases | apps/edge-agent/src/store.rs:923-999 | never aborts; takes exactly the leases that end by now, each to where its policy sends it and due at once, leaves every later lease as it is, and its counters are the leases that ran out under each policy |
| EdgeStore.EdgeStore.ClaimNext | apps/edge-agent/src/store.rs:1001-1131 | leases the first due command of an idle device until now plus the lease, fails exactly when deadline or counters overflow, finds none exactly when all that is due waits for its device |
| EdgeStore.EdgeStore.FinishClaim | apps/edge-agent/src/store.rs:1350-1435 | commits exactly when the claim still holds its lease; otherwise nothing changes; leaves the columns the disposition stands for |
| EdgeStore.EdgeStore.CompleteSuccess | apps/edge-agent/src/store.rs:1133-1155 | success needs the lease and a result valid for the command |
| EdgeStore.EdgeStore.RetryableFailure | apps/edge-agent/src/store.rs:1157-1201 | retry at the given time, or review after the last try of its kind |
| EdgeStore.EdgeStore.PermanentFailure | apps/edge-agent/src/store.rs:1203-1224 | failure under the lease |
| EdgeStore.EdgeStore.AmbiguousFailure | apps/edge-agent/src/store.rs:1226-1262 | an unknown outcome goes where the recovery policy sends it |
| EdgeStore.EdgeStore.DeferRecovery | apps/edge-agent/src/store.rs:1264-1293 | only a probe can be deferred |
| EdgeStore.EdgeStore.RecoveryNotFound | apps/edge-agent/src/store.rs:1295-1321 | only a probe can requeue its command |
| EdgeStore.EdgeStore.RequireManualReview | apps/edge-agent/src/store.rs:1323-1348 | review with device fallback |
| EdgeCommandInvariant.LeasedKeeps | apps/edge-agent/src/store.rs:1046-1128 | taking a lease keeps the whole command invariant, history discipline included |
| EdgeCommandInvariant.FinishedKeeps | apps/edge-agent/src/store.rs:1133-1435 | every way a claim can end keeps it |
| EdgeCommandInvariant.RevokedKeeps | apps/edge-agent/src/store.rs:1669-1726 | losing a lease keeps it |
| EdgeCommandInvariant.UnleasedKeeps | apps/edge-agent/src/store.rs:1622-1667 | operator moves and sweeps keep it |
| EdgeInvariant.ClaimedKeeps | apps/edge-agent/src/store.rs:1001-1131 | claiming keeps the table invariant and issues a claim that holds its lease |
| EdgeInvariant.FinishedTablesKeep | apps/edge-agent/src/store.rs:1350-1435 | finishing, with or without fallback, keeps the table invariant |
| EdgeInvariant.QuarantineKeeps | apps/edge-agent/src/store.rs:1728-1781 | a sweep keeps the invariant and leaves nothing live on the device |
| EdgeInvariant.HeldClaimHasItsAttempt | apps/edge-agent/src/store.rs:1382-1411 | a claim with its lease always finds exactly its own attempt active |
| EdgeInvariant.IssuedLasts | apps/edge-agent/src/store.rs:1350-1380 | a lease still held later means the row did not change at all |
| EdgeRecovery.RecoverOneExtends | apps/edge-agent/src/store.rs:923-999 | one turn of the loop extends the closed form by one command |
| EdgeRecovery.UnvisitedUntouched | apps/edge-agent/src/store.rs:1028-1033 | earlier turns cannot have touched a later expired command, because a device executes one at a time |
| EdgeRecovery.RecoveredKeeps | apps/edge-agent/src/store.rs:923-999 | recovering any set of expired leases keeps the invariant |
| EdgeRuns.RunKeeps | apps/edge-agent/src/store.rs:274-1435 | every run of every interleaving keeps the invariant, and every claim handed out stays accounted for |
| EdgeRuns.RunEvolves | apps/edge-agent/src/store.rs:274-1435 | between any two moments of a run histories only grow and terminal rows never change |
| EdgeRuns.LeaseCorrespondence | apps/edge-agent/src/store.rs:1001-1131 | executing iff leased iff exactly one active attempt; at most one executing command per device |
| EdgeRuns.StaleClaimIsFenced | apps/edge-agent/src/store.rs:1350-1380 | a claim that once lost its lease is refused for ever and changes nothing |
| EdgeRuns.HeldClaimIsUntouched | apps/edge-agent/src/store.rs:1350-1380 | while a lease is held nothing has happened to its command |
| EdgeRuns.FinishedOnce | apps/edge-agent/src/store.rs:1350-1435 | however often it is tried, a claim commits at most one outcome |
| EdgeRuns.LiveOnlyOnAutomatic | apps/edge-agent/src/store.rs:542-546 | live commands exist only on automatic devices |
| EdgeRuns.LeavingAutomaticSweepsExactly | apps/edge-agent/src/store.rs:1728-1852 | leaving automatic mode sends exactly that device's live commands to review and touches nothing else |
| EdgeRuns.FinishSweepsExactly | apps/edge-agent/src/store.rs:1424-1432 | an outcome that takes its device out of automatic sends exactly that device's live commands to review, without leases, and touches no other device |
| EdgeRuns.RecoverySweepsExactly | apps/edge-agent/src/store.rs:987-995 | the same for every device a lease recovery takes out of automatic |
| EdgeRuns.EveryDepartureSweeps | apps/edge-agent/src/store.rs:274-1435 | whichever transaction of a run takes a device out of automatic, exactly its live commands go to review |
| EdgeRuns.LogReplaysToState | apps/edge-agent/src/store.rs:1595-1704 | the log starts from nothing, chains, never leaves a terminal state and ends in the stored state; result iff succeeded, note iff resolved |
| EdgeRuns.TerminalIsForever | apps/edge-agent/src/store.rs:1350-1435 | a terminal command is never touched again |
| EdgeRuns.ControlLogReplaysToMode | apps/edge-agent/src/store.rs:1783-1828 | the device log starts disabled, chains, and ends in the stored mode |
| EdgeRuns.NoBlindReexecution | apps/edge-agent/src/store.rs:955-977 | between an execution of unknown outcome and a later execution lies a probe that found nothing or an operator retry |
| EdgeRuns.ProbesBelongToTheirPolicy | apps/edge-agent/src/store.rs:1046-1050 | probes and recovery waits occur only under probe-then-retry |
| EdgeRuns.SubmissionIsIdempotent | apps/edge-agent/src/store.rs:492-600 | once accepted, a request replays its current record for the rest of the run and no other request can share any part of its identity |
| EdgeRuns.AttemptAccounting | apps/edge-agent/src/store.rs:1017-1128 | attempts are numbered 1..n, the count is the executions, and a fixed limit is never exceeded, operator retries included |
| EdgeRuns.ClaimDescribesItsAttempt | apps/edge-agent/src/store.rs:1053-1128 | a claim carries the executions and probes so far and names the newest attempt |
| EdgeOutcomes.EndedExactlyWhen | apps/edge-agent/src/store.rs:1350-1380 | a claim is ended exactly while its lease token stands, with a result of its device class, and as a probe only if it is one |
| EdgeOutcomes.EndLeaves | apps/edge-agent/src/store.rs:1133-1435 | column by column, what each disposition leaves: state by kind, policy and tries left, due time, result, attempt outcome, log entry and device mode |
| EdgeOutcomes.RecoveryByTheClock | apps/edge-agent/src/store.rs:923-999 | recovery takes exactly the leases that end by now and leaves all others |
| EdgeOutcomes.CountedByTheClock | apps/edge-agent/src/store.rs:933-945 | the leases it counts are those that ran out |
| EdgeOutcomes.ClaimTakesTheFirstDue | apps/edge-agent/src/store.rs:1015-1128 | a claim takes the due command that is first by due time, submission and id, leases it until its deadline and changes nothing else |
| EdgeOutcomes.NothingToClaim | apps/edge-agent/src/store.rs:1015-1044 | nothing can be claimed exactly when whatever is due waits for another command of its device |
| EdgeOutcomes.CancelExactlyWhen | apps/edge-agent/src/store.rs:808-829 | exactly what has not ended and is not executing can be cancelled |
| EdgeOutcomes.ResolveExactlyWhen | apps/edge-agent/src/store.rs:790-806 | exactly what is up for review can be settled by hand, with its note |
| EdgeOutcomes.RetryExactlyWhen | apps/edge-agent/src/store.rs:831-878 | exactly what is up for review on an automatic device can be sent back, due at once |
| EdgeOutcomes.AcceptedExactlyWhen | apps/edge-agent/src/store.rs:492-600 | exactly a request that fits its device and shares no identity is accepted, for work on an automatic device and for review on another |
| EdgeOutcomes.RefusedBecause | apps/edge-agent/src/store.rs:492-600 | which error a refused request gets, and exactly when a request is an identity conflict |
| EdgeOutcomes.HealthExactly | apps/edge-agent/src/store.rs:395-459 | health is stored; reports under which no work is done are counted in a row, up to 32 bits |
| EdgeOutcomes.RegisterExactlyWhen | apps/edge-agent/src/store.rs:274-340 | a device starts disabled under its trimmed name; the same description again changes nothing |
| EdgeOutcomes.ModeExactly | apps/edge-agent/src/store.rs:367-393 | every worded change of a registered device goes through; to automatic, no command moves |
| EdgeWaiting.BackoffIsHonoured | apps/edge-agent/src/store.rs:1015-1026 | on every run, a command put off to a later time is not claimed before it unless an operator sends it back: not by its next claim, and by none while claims are made on a clock that does not go back |
| EdgeWaitingLimits.ClockGoingBackClaimsEarly | apps/edge-agent/src/store.rs:1015-1026 | the clock condition is needed: a run in which it goes back and a later claim comes before the time |
| Backoff.DelayIsCappedExponential | apps/edge-agent/src/engine.rs:426-443 | the overflow fallback is invisible: the delay is the capped exponential over unbounded integers |
| Backoff.DelayGrowsWithinBounds | apps/edge-agent/src/engine.rs:426-443 | delays are monotone in the attempt and stay between base and cap |
| Backoff.DelayDoubles | apps/edge-agent/src/engine.rs:431-439 | the first wait is the base delay, each further one twice the last up to the cap, and from the 32nd on it stays |
| EdgeEngine.Create | apps/edge-agent/src/engine.rs:36-66 | an engine exists exactly for a valid configuration |
| EdgeEngine.EdgeEngine.constructor | apps/edge-agent/src/engine.rs:108-121 | keeps its store and configuration |
| EdgeEngine.EdgeEngine.SubmitCommand | apps/edge-agent/src/engine.rs:131-177 | accepts exactly what the store accepts and the registered adapter serves and can recover |
| EdgeEngine.EdgeEngine.HandleFailure | apps/edge-agent/src/engine.rs:375-424 | each failure class ends the claim as decided and is counted, or errs and changes nothing when the lease is gone |
| EdgeEngine.EdgeEngine.ProcessProbe | apps/edge-agent/src/engine.rs:324-371 | each probe answer ends the claim as decided and is counted, or errs and changes nothing when the lease is gone |
| EdgeEngine.Perform | apps/edge-agent/src/main.rs:17-138 | any one transaction of an operator, the cloud or a health report on the shared store |
| EdgeDecision.ReviewExactlyWhen | apps/edge-agent/src/engine.rs:228-424 | the exact answers of an adapter that send a command to review |
| EdgeDecision.FinalExactlyWhen | apps/edge-agent/src/engine.rs:228-424 | the exact answers that end it with success or failure, or send it back as never received |
| EdgeDecision.LaterExactlyWhen | apps/edge-agent/src/engine.rs:228-440 | the exact answers that put it off, and to which time |
| EdgeDecision.OpenExactlyWhen | apps/edge-agent/src/engine.rs:228-440 | the exact answers that leave the claim open |
| EdgeDecision.ReachedExactlyWhen | apps/edge-agent/src/engine.rs:276-289 | the device is reached exactly when healthy or degraded; which health is recorded |
| EdgeEngine.EdgeEngine.EndedAsAnswered | apps/edge-agent/src/engine.rs:228-424 | an ended claim leaves its command in the state the answers stand for, due when the backoff says, and its device automatic unless it goes to review |
| EdgeEngine.EdgeEngine.SummedCounts | apps/edge-agent/src/engine.rs:89-98 | each figure of the summary is the number of claims that ended that way |
| EdgeEngine.EdgeEngine.ReportHealth | apps/edge-agent/src/engine.rs:276-289 | records the health a usable adapter reports, offline when it is unreachable |
| EdgeEngine.EdgeEngine.Conclude | apps/edge-agent/src/engine.rs:228-373 | ends the claim as decided from the adapter's answers, exactly while its lease is held; every counter follows from the answers and the disposition |
| EdgeEngine.EdgeEngine.ProcessClaim | apps/edge-agent/src/engine.rs:228-373 | with others committing before and after the health report, commits the decided end of the claim once and counts it, leaving command and device as the answers stand for (an absent device means another try later and an automatic device, a faulted one review and manual fallback), or errs and commits none; it is a consultation and a settlement of the history |
| EdgeEngine.EdgeEngine.Turn | apps/edge-agent/src/engine.rs:216-224 | one turn of the pass: takes the next claim, commits its end and counts it, or finds nothing eligible |
| EdgeEngine.EdgeEngine.RunOnce | apps/edge-agent/src/engine.rs:206-226 | with any transactions of others between its own: a pass that succeeds commits exactly one end for each claim it took, as decided, and its eight counters are the leases that ran out, the claims and how they ended; it fails only because a claim cannot be made or its last one cannot be ended; attempts grow by exactly the claims, at most a batch; what is left executing already was, under a lease ending later; nothing due remains on an idle device if it stopped early; the pass continues the history before it, so effects stay within one plus the operator retries |
| EdgeSettlement.FinishSettles | apps/edge-agent/src/store.rs:1350-1435 | ending a claim settles one command; every other row stays, or was a live one of the same device and is swept |
| EdgeSettlement.RecoveryOnlyReleases | apps/edge-agent/src/store.rs:923-999 | recovery starts no attempt, finishes no command and leaves executing only unexpired leases |
| EdgeSettlement.ForeignersProgress | apps/edge-agent/src/store.rs:274-921 | any number of other people's transactions inside a pass start no attempt and finish no command |
| EdgeSettlement.FinishProgresses | apps/edge-agent/src/store.rs:1350-1435 | ending the claim raises exactly the counter its disposition names and leaves nothing of the pass executing |
| EdgeWorld.ConsultKnows | apps/edge-agent/src/adapter.rs:34-46 | what the runner decides agrees with what the device accepted |
| EdgeWorld.MoveKeeps | apps/edge-agent/src/engine.rs:206-424 | every move of runner, operator, device or crash keeps the acceptance invariant |
| EdgeWorld.EffectsWithinOperatorRetries | apps/edge-agent/src/engine.rs:228-424 | a non-deduplicated command is accepted at most once more often than operators sent it back, no more often than that while queued, waiting to retry or failed, at least once if it succeeded |
| EdgeWorld.AtMostOnePhysicalEffect | apps/edge-agent/src/engine.rs:228-424 | a non-deduplicated command no operator retried is accepted at most once, never while queued, waiting to retry or failed, exactly once if it succeeded |
| EdgeWorld.HistoryIsARun | apps/edge-agent/src/engine.rs:206-424 | the transactions of every history form a run, so every theorem about runs holds of it |
| EdgeWorld.EndedExactlyOnce | apps/edge-agent/src/store.rs:1350-1435 | on every history a claim whose end was committed has exactly one committed end |
| EdgeWorldLimits.EveryRetryMayActAgain | apps/edge-agent/src/store.rs:831-878 | the bound is reached: for every n, a history with n operator retries and n + 1 acceptances |
| EdgeWorldLimits.OperatorRetryAllowsASecondEffect | apps/edge-agent/src/store.rs:831-878 | in particular one operator retry and two acceptances |
| LeaseMonitor.Create | apps/rf-android/src/lease.rs:200-227 | anchors a server expiry to a clock sample, or reports why it cannot |
| LeaseMonitor.MovementLeaseMonitor.BeginHeartbeat | apps/rf-android/src/lease.rs:274-294 | starts an attempt exactly when one is due |
| LeaseMonitor.MovementLeaseMonitor.HeartbeatSucceeded | apps/rf-android/src/lease.rs:330-376 | renews from the start of the cycle, or fails without a trace |
| LeaseMonitor.MovementLeaseMonitor.HeartbeatFailed | apps/rf-android/src/lease.rs:379-411 | schedules a retry or ends the lease, or fails without a trace |
| LeaseMonitor.MovementLeaseMonitor.ExpireTimedOutHeartbeat | apps/rf-android/src/lease.rs:310-322 | turns exactly a timed-out attempt into a retryable failure |
| LeaseMonitor.OffsetLeavesReserve | apps/rf-android/src/lease.rs:513-521 | the next heartbeat leaves the guard and two retries if the lease is that long, else is due at once |
| LeaseMonitor.OffsetIsTheLatest | apps/rf-android/src/lease.rs:513-521 | no later offset in the first half of the lease leaves the guard and two retries |
| LeaseMonitor.ActionsAllowedExactlyWhen | apps/rf-android/src/lease.rs:415-439 | actions go ahead exactly under a verified, unrejected lease with more than the guard left |
| LeaseMonitor.BeginsExactlyWhen | apps/rf-android/src/lease.rs:260-294 | a heartbeat begins exactly from its time until the deadline, under the next number; a retry keeps the start of its cycle |
| LeaseMonitor.RenewalIsAnchored | apps/rf-android/src/lease.rs:330-376 | an answer renews exactly when it fits; the deadline is the server's window from the start of the cycle |
| LeaseMonitor.RefusedExactly | apps/rf-android/src/lease.rs:441-466 | which callbacks are stale, mismatched or without a heartbeat in flight |
| LeaseMonitor.FailureExactly | apps/rf-android/src/lease.rs:379-411 | a failure ends a rejected lease, else schedules a retry after the delay but no later than actions stop |
| LeaseMonitor.TimeoutExactly | apps/rf-android/src/lease.rs:296-322 | a timeout is a retryable failure, exactly once the request has been out that long |
| LeaseMonitor.AnchorExactly | apps/rf-android/src/lease.rs:200-227 | a new monitor has until the server's expiry by the wall clock, unverified and due at once |
| LeaseMonitor.RenewalLeavesReserve | apps/rf-android/src/lease.rs:360-376 | the same for every accepted renewal |
| LeaseMonitor.RenewalIsTheLatest | apps/rf-android/src/lease.rs:360-376 | a renewal schedules the latest heartbeat that keeps half the lease and the reserve; with room to spare it is not due at once |
| LeaseMonitor.RetryBeforeBlock | apps/rf-android/src/lease.rs:387-395 | on every run a retry is never scheduled past the point where actions stop |
| LeaseMonitor.CycleNeverMissing | apps/rf-android/src/lease.rs:338-340 | the missing-cycle error is unreachable |
| LeaseMonitor.RejectionIsFinal | apps/rf-android/src/lease.rs:379-411 | nothing changes a rejected lease |
| LeaseMonitor.LateCallbackIsFenced | apps/rf-android/src/lease.rs:441-466 | an attempt below the last id that is over never comes back, so its late callback changes nothing |
| LeaseMonitor.SpentLasts | apps/rf-android/src/lease.rs:274-294 | an attempt id below the next one, or equal to it at the largest, stays so on every run |
| LeaseMonitor.LateCallbackTakenExactlyWhen | apps/rf-android/src/lease.rs:441-466 | on every run, a callback carrying such an id is accepted once the next heartbeat begins exactly if the id is the largest |
| LeaseServer.DeliverKeeps | apps/rf-android/src/lease.rs:330-376 | a renewal always uses a grant made after its own cycle began |
| LeaseServer.LeaseIsNeverOptimistic | apps/rf-android/src/lease.rs:274-439 | until ids run out the verified deadline never passes the server's, so allowed actions have more than the guard left |
| LeaseLimits.SaturatedIdsMakeTheLeaseOptimistic | apps/rf-android/src/lease.rs:282-283 | from a newly anchored monitor the ids run out, and then a late answer allows actions after the server's expiry |
| RfCommandStore.CommandStore.constructor | apps/rf-android/src/command_store/schema.rs:6-86 | a new database satisfies the invariant |
| RfCommandStore.CommandStore.RecoverInterruptedDispatches | apps/rf-android/src/command_store.rs:858-885 | opening turns everything in flight into an unknown outcome |
| RfCommandStore.CommandStore.SetServerUrl | apps/rf-android/src/command_store.rs:329-382 | the server changes only with nothing unresolved on this device; returns the stored profile |
| RfCommandStore.CommandStore.Persist | apps/rf-android/src/command_store.rs:384-492 | replay, refuse or insert, in the order of the checks |
| RfCommandStore.CommandStore.BeginAttempt | apps/rf-android/src/command_store.rs:494-561 | starts the next numbered attempt |
| RfCommandStore.CommandStore.MarkAmbiguous | apps/rf-android/src/command_store.rs:563-610 | ends the attempt in flight with unknown outcome; returns the stored record |
| RfCommandStore.CommandStore.RecordResponse | apps/rf-android/src/command_store.rs:612-684 | records a definitive response for the attempt in flight |
| RfCommandStore.CommandStore.RecordRetryableResponse | apps/rf-android/src/command_store.rs:686-747 | records a retryable one without storing it; returns the stored record |
| RfCommandStore.CommandStore.Finalize | apps/rf-android/src/command_store.rs:749-791 | only a recorded response can be finalised; returns the stored record |
| RfCommandStore.CommandStore.UnresolvedForDevice | apps/rf-android/src/command_store.rs:827-856 | lists at most one command, and one exactly when one is unresolved |
| RfCommandRuns.RunKeeps | apps/rf-android/src/command_store.rs:329-885 | every run keeps the invariant and rewrites nothing it recorded |
| RfCommandRuns.OneUnresolvedPerDevice | apps/rf-android/src/command_store.rs:384-492 | at most one unresolved command per device, unique command ids and keys |
| RfCommandRuns.FinalIsFrozen | apps/rf-android/src/command_store.rs:749-791 | final records never change, and one awaiting reconciliation blocks every new command of its device |
| RfCommandRuns.AttemptsShareServerAndRequest | apps/rf-android/src/command_store.rs:329-561 | all attempts of a command of this device go to one server with one request and key |
| RfCommandRuns.ReachableRecordsDecode | apps/rf-android/src/command_store.rs:991-1066 | the decoder never refuses a reachable record; status, attempts and response always fit |
| RfCommandRuns.ResponseIsWrittenOnce | apps/rf-android/src/command_store.rs:612-684 | a response is never replaced and never a retryable one |
| RfCommandRuns.ReopeningIsClean | apps/rf-android/src/command_store.rs:858-885 | after reopening nothing is in flight, the same commands are unresolved, and reopening again changes nothing |
| RfCommandRuns.EveryStatusHasOneRecorder | apps/rf-android/src/command_store.rs:1225-1227 | each HTTP status is taken by exactly one of the two recording calls |
| RfOutcomes.BeginsExactlyWhen | apps/rf-android/src/command_store.rs:494-561 | a dispatch begins exactly for a command never sent, of unknown outcome or to be retried |
| RfOutcomes.EndsExactlyWhen | apps/rf-android/src/command_store.rs:563-610 | a dispatch ends exactly for the newest attempt of a command being sent, and changes its status alone |
| RfOutcomes.ResponseExactlyWhen | apps/rf-android/src/command_store.rs:612-747 | a response is stored exactly for the attempt in flight and a status other than 401, 408, 429 and 500 to 599 |
| RfOutcomes.StoredResponseSettles | apps/rf-android/src/command_store.rs:1225-1227 | on every run, no stored response has one of those |
| RfOutcomes.FinalExactlyWhen | apps/rf-android/src/command_store.rs:749-791 | exactly a recorded response is finalised, to one of three states |
| RfOutcomes.RefusedBecause | apps/rf-android/src/command_store.rs:494-791 | which error a refused begin, end or finalisation gets |
| RfOutcomes.PersistedExactlyWhen | apps/rf-android/src/command_store.rs:384-492 | exactly an unknown well-formed command of an idle device is added; exactly a known identical one is answered from its record |
| RfOutcomes.ServerExactlyWhen | apps/rf-android/src/command_store.rs:329-382 | the server changes exactly while the device is idle |
| RfOutcomes.ReopenExactly | apps/rf-android/src/command_store.rs:858-885 | opening makes what was being sent of unknown outcome and changes nothing else |
| OutboundLoads.FirstWithId | apps/rf-android/src/outbound_load.rs:487-490 | the first carton of an id |
| OutboundLoads.MatchingCarton | apps/rf-android/src/outbound_load.rs:605-639 | the first carton with the barcode that may move this way |
| OutboundLoads.CountsCompare | apps/rf-android/src/outbound_load.rs:722-743 | how the expected counters relate to a recount, bucket by bucket |
| OutboundLoads.RecountExactly | apps/rf-android/src/outbound_load.rs:722-743 | the two counters are the staged and the loaded cartons |
| OutboundLoads.CheckedSumExactly | apps/rf-android/src/outbound_load.rs:641-720 | a checked sum is the sum, unless a partial sum leaves 64 bits |
| OutboundLoads.MatchesExactlyWhen | apps/rf-android/src/outbound_load.rs:641-743 | with unique ids a result is taken exactly when it moves all of this carton, to the right place, one revision on, with recounted counters |
| OutboundWorkflow.AcceptedScansExactly | apps/rf-android/src/outbound_load.rs:533-639 | the scans a load accepts are those of a movable carton between the right places, by operation |
| OutboundWorkflow.OfferedExactlyWhen | apps/rf-android/src/outbound_load.rs:222-270 | an operation is offered exactly in its load states with a carton to move |
| OutboundLoads.OutcomeAgreesWithRecount | apps/rf-android/src/outbound_load.rs:475-509 | after a matching result counters equal a recount exactly when no other carton of that id is elsewhere |
| OutboundLoads.UniqueIdsKeepTheCopyExact | apps/rf-android/src/outbound_load.rs:641-765 | with unique ids counters equal a recount, only the moved carton changes, by one revision |
| OutboundLoads.DuplicateIdsBreakTheCount | apps/rf-android/src/outbound_load.rs:722-743 | a matching result with a duplicate id whose counters miss the recount |
| OutboundLoads.GroundedFollowsEdge | apps/rf-android/src/outbound_load.rs:684-710 | a carton taken from an eligible position moves along a packed - staged - loaded edge |
| OutboundWorkflow.OutboundLoadWorkflow.constructor | apps/rf-android/src/outbound_load.rs:132-146 | starts without load or command |
| OutboundWorkflow.OutboundLoadWorkflow.SelectFirstAvailable | apps/rf-android/src/outbound_load.rs:587-595 | keeps an allowed operation, else takes the first allowed one in screen order |
| OutboundWorkflow.OutboundLoadWorkflow.ResolveLoad | apps/rf-android/src/outbound_load.rs:188-195 | a fetched load replaces the copy and clears the lane |
| OutboundWorkflow.OutboundLoadWorkflow.ClearLoad | apps/rf-android/src/outbound_load.rs:203-211 | drops the copy only when nothing is under way |
| OutboundWorkflow.OutboundLoadWorkflow.SelectOperation | apps/rf-android/src/outbound_load.rs:213-220 | changes only to an allowed operation, with nothing under way |
| OutboundWorkflow.OutboundLoadWorkflow.SubmitScan | apps/rf-android/src/outbound_load.rs:285-309 | keeps a scan exactly in its turn and when the load accepts it |
| OutboundWorkflow.OutboundLoadWorkflow.BeginMovement | apps/rf-android/src/outbound_load.rs:311-371 | emits exactly when all scans are kept: between the staging location and the trailer as the operation asks, of the first movable carton with the barcode, with the copy itself as expectation |
| OutboundWorkflow.OutboundLoadWorkflow.CommandPersisted | apps/rf-android/src/outbound_load.rs:373-386 | the stored draft becomes ready unchanged |
| OutboundWorkflow.OutboundLoadWorkflow.DispatchStarted | apps/rf-android/src/outbound_load.rs:388-394 | the ready command goes in flight unchanged |
| OutboundWorkflow.OutboundLoadWorkflow.DispatchAmbiguous | apps/rf-android/src/outbound_load.rs:396-405 | a lost dispatch keeps its command |
| OutboundWorkflow.OutboundLoadWorkflow.RetryAmbiguous | apps/rf-android/src/outbound_load.rs:441-448 | a retry reuses the command |
| OutboundWorkflow.OutboundLoadWorkflow.Restore | apps/rf-android/src/outbound_load.rs:407-439 | a restored command brings its own load; anything else stops the workflow |
| OutboundWorkflow.OutboundLoadWorkflow.OutcomeRecorded | apps/rf-android/src/outbound_load.rs:475-509 | a matching outcome updates the copy, which then agrees with a recount and moved one carton along an edge; any other leaves copy and command alone |
| OutboundWorkflow.OutboundLoadWorkflow.RejectionRecorded | apps/rf-android/src/outbound_load.rs:511-517 | frees the lane, keeps the copy |
| DurableLane.CommandIsKept | apps/rf-android/src/workflow.rs:854-1054 | through any losses and retries the callbacks of a lane keep its command the same, until its own outcome or rejection ends it |
| DurableLane.SentOncePerRetry | apps/rf-android/src/workflow.rs:854-1054 | a command is sent once, and once more only for each retry of an unknown outcome |
| DurableLane.NextExactly | apps/rf-android/src/workflow.rs:854-1054 | each event moves the lane along one edge for its own record, or not at all |
| MovementWorkflow.AnsweredExactlyBy | apps/rf-android/src/workflow.rs:1153-1205 | the exact outcomes that answer each command |
| ReplenishmentWorkflow.AnsweredExactlyBy | apps/rf-android/src/replenishment.rs:457-481 | the exact outcomes that answer each command |
| Text.TrimTakesOffSpace | apps/rf-android/src/outbound_load.rs:292 | trimming takes white space off both ends, all of it and nothing else |
| Text.EmptyExactlyWhen | apps/rf-android/src/outbound_load.rs:292 | nothing is left exactly of white space |
| Text.EqualExactlyWhen | apps/rf-android/src/outbound_load.rs:611 | texts are equal but for case exactly when each pair of characters is |
| MovementWorkflow.MovementWorkflow.constructor | apps/rf-android/src/workflow.rs:603-618 | starts idle; from here every call keeps that the commands emitted are the ones answered, in order, and the one under way |
| MovementWorkflow.MovementWorkflow.SelectOperation | apps/rf-android/src/workflow.rs:625-631 | only while idle |
| MovementWorkflow.MovementWorkflow.SelectKind | apps/rf-android/src/workflow.rs:651-657 | only while idle |
| MovementWorkflow.MovementWorkflow.BeginCommand | apps/rf-android/src/workflow.rs:1119-1151 | puts a draft with the claim's policy in the lane, unless its identity is blank; a justified one in a free lane keeps every emission justified and every command kept |
| MovementWorkflow.MovementWorkflow.BeginClaimNext | apps/rf-android/src/workflow.rs:714-729 | exactly while idle |
| MovementWorkflow.MovementWorkflow.BeginClaimById | apps/rf-android/src/workflow.rs:731-749 | exactly while idle and for a positive task |
| MovementWorkflow.MovementWorkflow.SubmitScan | apps/rf-android/src/workflow.rs:751-816 | a confirmation leaves exactly on a fitting destination scan, with every required scan accepted in order and the claim's task, barcodes and policy |
| MovementWorkflow.MovementWorkflow.BeginRelease | apps/rf-android/src/workflow.rs:818-852 | exactly with a claim, nothing under way, a short enough note and, for the other reason, a note at all; carries the trimmed note |
| MovementWorkflow.MovementWorkflow.CommandPersisted | apps/rf-android/src/workflow.rs:854-867 | the draft becomes ready unchanged, only for its own command id and a positive record number |
| MovementWorkflow.MovementWorkflow.DispatchStarted | apps/rf-android/src/workflow.rs:869-878 | the ready command of that record goes in flight unchanged |
| MovementWorkflow.MovementWorkflow.DispatchAmbiguous | apps/rf-android/src/workflow.rs:880-892 | a lost dispatch keeps its command and record |
| MovementWorkflow.MovementWorkflow.RetryAmbiguous | apps/rf-android/src/workflow.rs:930-937 | a retry dispatches the same command and record again |
| MovementWorkflow.MovementWorkflow.OutcomeRecorded | apps/rf-android/src/workflow.rs:939-1036 | only a matching outcome of the record in flight empties the lane; a conflict stops the workflow with the command kept; exactly then its command is answered |
| MovementWorkflow.MovementWorkflow.RejectionRecorded | apps/rf-android/src/workflow.rs:1038-1054 | frees the lane, keeps claim and scans; exactly then its command is answered |
| MovementWorkflow.MovementWorkflow.RequireReconciliation | apps/rf-android/src/workflow.rs:1091-1094 | stops the workflow, keeping claim, scans and command |
| ReplenishmentWorkflow.CompleteScans | apps/rf-android/src/replenishment.rs:202-217 | scans up to the destination are exactly the claim's stages |
| ReplenishmentWorkflow.ReleaseKeepsLaneExactlyWhen | apps/rf-android/src/replenishment.rs:321-336 | when a release leaves the command under way alone |
| ReplenishmentWorkflow.ReleaseDropsAConfirmationInFlight | apps/rf-android/src/replenishment.rs:321-336 | by calls on a new workflow: a release replaces a confirmation in flight, whose own outcome is then refused |
| ReplenishmentWorkflow.ReplenishmentWorkflow.constructor | apps/rf-android/src/replenishment.rs:161-176 | starts idle |
| ReplenishmentWorkflow.ReplenishmentWorkflow.Begin | apps/rf-android/src/replenishment.rs:338-358 | puts a draft in the lane unless its identity is blank; a justified one keeps every emission justified |
| ReplenishmentWorkflow.ReplenishmentWorkflow.BeginClaimNext | apps/rf-android/src/replenishment.rs:219-225 | exactly while idle with a usable identity |
| ReplenishmentWorkflow.ReplenishmentWorkflow.BeginClaimById | apps/rf-android/src/replenishment.rs:227-254 | exactly while idle and for positive work |
| ReplenishmentWorkflow.ReplenishmentWorkflow.SubmitScan | apps/rf-android/src/replenishment.rs:256-298 | a scan is kept exactly when expected now and showing what the claim says |
| ReplenishmentWorkflow.ReplenishmentWorkflow.BeginConfirmation | apps/rf-android/src/replenishment.rs:300-319 | leaves exactly when no scan is missing, carrying the claim's barcodes and terms |
| ReplenishmentWorkflow.ReplenishmentWorkflow.BeginRelease | apps/rf-android/src/replenishment.rs:321-336 | replaces whatever is under way |
| ReplenishmentWorkflow.ReplenishmentWorkflow.CommandPersisted | apps/rf-android/src/replenishment.rs:360-372 | the draft becomes ready unchanged, only for its own command id and a positive record number |
| ReplenishmentWorkflow.ReplenishmentWorkflow.DispatchStarted | apps/rf-android/src/replenishment.rs:374-380 | the ready command of that record goes in flight unchanged |
| ReplenishmentWorkflow.ReplenishmentWorkflow.DispatchAmbiguous | apps/rf-android/src/replenishment.rs:382-391 | a lost dispatch keeps its command and record |
| ReplenishmentWorkflow.ReplenishmentWorkflow.RetryAmbiguous | apps/rf-android/src/replenishment.rs:393-400 | a retry dispatches the same command and record again |
| ReplenishmentWorkflow.ReplenishmentWorkflow.OutcomeRecorded | apps/rf-android/src/replenishment.rs:409-481 | what an accepted outcome leaves depends on command and outcome alone; any other stops the workflow unchanged |
| ReplenishmentWorkflow.ReplenishmentWorkflow.RejectionRecorded | apps/rf-android/src/replenishment.rs:483-500 | a rejected confirmation must be scanned again |
| ReplenishmentWorkflow.ReplenishmentWorkflow.RestoreCurrentClaim | apps/rf-android/src/replenishment.rs:502-509 | only with nothing under way |
| ReplenishmentWorkflow.ReplenishmentWorkflow.RestoreCommand | apps/rf-android/src/replenishment.rs:511-538 | a restored command takes exactly the outcomes it would have taken in flight |

## Left out

- Liveness: a deduplicated command past its budget is never claimed again and is not sent to review; only safety is stated.
- Probe budget: probes are bounded by the source only on the still-processing and retryable paths, so no bound on probes is stated.
- SQLite, SQL text, schema migration and row decoding beyond the status and response check; each transaction is one atomic step.
- SHA-256 and JSON: requests and bodies are compared by equality, and building a request is a fixed function of the draft.
- RFC 3339 parsing: a timestamp is an integer or unreadable; only the subtraction and the positive-window check remain.
- Cloud delivery inside a submission, and the cloud synchronisation loop.
- Periodic heartbeat refresh of all adapters, listings and read-only queries of the edge store.
- Picking, cross-docking, cycle counting and receiving workflows, which repeat the lanes modelled here.
- Wire mapping, transport, application shell, web operations, server configuration and command-line programs.
- Error texts, notices, reasons, actors, audit timestamps and health messages, except the log entries' states.
- Device-specific payload validation: one device class and one validity flag per command and result.
- White space and case folding outside ASCII in scans, names and reasons.
- Command-line and debug entry points that load claims directly into a workflow.
- MovementWorkflow restore calls: a lane filled from saved work is not covered by the evidence histories.
- Text of the server URL: what normalisation makes of it is a parameter of the handheld's store.
- 32-bit overflow of the outbound carton counters, which would need more than four thousand million cartons.
- Order of rows: recovery and quarantine are proved for every order, so the order of the source's query is not fixed.
- Physical acceptance is counted when the adapter call is made; a message delivered to the controller after the call ended is outside the adapter's promise.
- EdgeStore.FinishClaim: is required only for claims that a claim transaction handed out, the only ones its callers can hold.
