# Site checker: the persisted check-job protocol

A model of how the site checker schedules, publishes, runs and records checks, and proofs of what its
documentation and tests rely on. Four parts:

- **The monitor store.** `StoreSpec` gives every locked operation of `MonitorStore` as a total function on
  a value; `MonitorStore` (module `MonitorStores`, with the loops in `StoreLoops`) is the store itself, with
  its maps, order lists and head indexes changed in place, each method proved to be one step of a run.
  `Runs`, `RunInvariants`, `Lifecycle`, `RunTheorems`, `ClaimTheorems` and `ClaimRuns` state and prove what holds in
  every run.
- **The protocol around it.** `Protocol` is a step relation over the store, the broker queue, messages,
  deliveries, publication claims and reconcilers; `ProtocolInvariants` and `ProtocolTheorems` prove its promises
  over every interleaving. `MemoryProtocol`, `MemoryTheorems` and `MemoryRuns` put the in-memory queue in the
  broker's place and say exactly when it strands a job. `LossRecovery` runs the threads of `Topology` together
  with the protocol.
- **Alerts.** `Alerts` and `AlertTheorems` cover the incident upsert, the alert decision, the outbox and the
  dispatcher; `AlertRepository` runs the transactions statement by statement.
- **Supporting structures.** `Sequences` (windows with a head index and compaction), `MonitorMetrics`,
  `Topology` (loss generations under concurrent reports), `MemoryQueue`, `Backoff`.

A run is any sequence of operations whose clock readings strictly advance and whose random identifiers and
tokens were not seen before (`Enabled`); time is a natural number of nanoseconds and 0 is the zero time. Clock
readings, random draws, hashes and the verdict of the URL policy are parameters. The retention bounds (500 and
10,000) are parameters of at least 1. The order in which a map is iterated is left open: the sweep may meet the
rows in any order. The protocol adds two assumptions, both written into `Allowed`: the recovery lock is exclusive,
and the queue is not deleted between a reconciler's successful passive check and the declaration that follows it.
A message's publication token is a history variable that the code does not transport.

The maximum number of attempts is fixed during a run of the protocol, as configured for the process; claims on the
outbox may each bring their own.

Two points where the code does less than its surroundings suggest, kept as they are: `MarkAlertDelivered` checks the
token and not the expiry of the lease, and `InMemoryQueue.Publish` reports success without enqueuing for a live
identifier. So "no stranded job" is false of the in-memory queue. What a caller can see to be safe is that no
publication finds its identifier live, no hand-off is cancelled and no message put back is refused
(`MemoryRuns.NoStrandedInMemory`). The exact condition is `MemoryTheorems.Harmful`: a live identifier does no harm
while it stands for a message that can still be granted, and a refusal or a loss does none while no job awaits the
message (`MemoryRuns.ServedExactly`).

## Model

| member | source | states |
|---|---|---|
| `ProtocolTheorems.NoStrandedJob` | internal/sitechecker/queue.go:502-559 | in every interleaving of schedulers, workers, reconcilers and queue deletions: whenever the queue exists, each queued job has a message under its current token, for its own monitor and its next attempt, in the queue or with a worker the store has not answered |
| `ProtocolTheorems.NothingQueuedAtDeclare` | internal/sitechecker/queue.go:519-551 | when a missing queue is declared again no job is queued, and the declaration itself changes nothing in the store |
| `ProtocolTheorems.DeletionAfterCheckStrands` | internal/sitechecker/queue.go:507-517 | why the assumption about deletions is needed: a deletion between a successful passive check and the declare after it leaves every queued job without a message |
| `ProtocolTheorems.AttemptBound` | internal/sitechecker/runtime.go:165-172 | attempts never exceed the maximum, stay strictly below it outside processing and termination, and a job is granted at most that many leases |
| `ProtocolTheorems.NeverStuck` | internal/sitechecker/monitor.go:457-497 | no live job is ever stuck: a scheduled or failed one is claimable exactly once its times have come; while the queue exists a queued one has its message under way; the first claim call at or past its expiry ends a processing one, hands it out again or leaves it claimable |
| `ProtocolTheorems.ExhaustedSweepIsIdle` | internal/sitechecker/postgres_repository.go:400-405 | no failed row and no scheduled row ever has its attempts used up: the extra sweep never fires |
| `ProtocolTheorems.TokenDeterminesAttempt` | internal/sitechecker/monitor.go:668-677 | while a job is scheduled or queued, the token of a claim determines the attempt, so the attempt comparison of a callback never decides |
| `ProtocolTheorems.ResultsUseConfigInForce` | internal/sitechecker/runtime.go:277-307 | every recorded result was obtained with the URL, timeout and expected status in force when it was recorded, although the worker read them before taking the lease |
| `ProtocolTheorems.AlwaysSound` | internal/sitechecker/runtime.go:158-194 | every state of every interleaving keeps all promises of the protocol: known claims and messages, nothing lost, sound phases, current reads, bounded attempts |
| `ProtocolInvariants.StepSound` | internal/sitechecker/runtime.go:277-344 | each single step of scheduler, worker, broker or reconciler keeps those promises |
| `ProtocolInvariants.OpSound` | internal/sitechecker/monitor.go:299-1012 | each store operation by itself keeps them, whatever the transport does |
| `ProtocolInvariants.GrantAnswers` | internal/sitechecker/monitor.go:704-735 | a worker holding a waiting job's own message is handed the lease: for that job, its monitor and its next attempt |
| `ProtocolInvariants.GrantLeavesNone` | internal/sitechecker/monitor.go:704-735 | after the answer no job waits under the token of that message |
| `ProtocolInvariants.ReconcilerLoss` | internal/sitechecker/queue.go:502-559 | no phase change of a reconciler, the declaration included, makes the queue present while something published is lost |
| `ProtocolInvariants.HandlerSound` | internal/sitechecker/queue.go:290-316 | a handler run by any thread leaves nothing published waiting, so every loss reported before it is recovered |
| `ProtocolInvariants.DeliveryChanges` | internal/sitechecker/runtime.go:277-301 | a delivery may be answered, settled or dropped without losing anything once no job waits under its token |
| `ProtocolInvariants.StepConfigs` | internal/sitechecker/monitor.go:334-373 | an operation that changes a monitor's URL, timeout or expected status leaves it without a live job |
| `RunTheorems.IndexesAgree` | internal/sitechecker/monitor.go:165-182 | in every reachable state the URL index is the inverse of the monitors, the active map lists exactly the live jobs with at most one per monitor, the open map exactly the open incidents, a lease token is set exactly while processing, and a disabled monitor has no live periodic job |
| `RunTheorems.OneResultPerJob` | internal/sitechecker/monitor.go:862-888 | at most one result per job identifier in any run, whatever the bounded histories have forgotten; a processing job is never among the processed identifiers, so the late duplicate test is unreachable |
| `RunTheorems.FailureCountIsStreak` | internal/sitechecker/monitor.go:952-996 | the reported consecutive failures are the failed results since creation, last success or last change of meaning |
| `RunTheorems.NextSlotIsNew` | internal/sitechecker/queue.go:1153-1158 | an enabled monitor without a live periodic job is due strictly after every slot it ever had, so the derived job identifier was never used |
| `RunTheorems.EqualReadingsRepeat` | internal/sitechecker/monitor.go:352-356 | why the clock must advance: planning, disabling and enabling at one reading makes the monitor due under the identifier just used |
| `RunTheorems.JobsAreFinal` | internal/sitechecker/monitor.go:936-950 | a terminal record never changes, and an identifier once evicted or deleted never names a stored job again |
| `RunTheorems.LiveStays` | internal/sitechecker/monitor.go:936-950 | a live job does not vanish: its record stays stored until the job ends or its monitor is deleted |
| `RunTheorems.OneAuthority` | internal/sitechecker/monitor.go:797-805 | of all leases ever handed out for a job, at any instant of any run at most one has authority |
| `RunTheorems.LeaseFencing` | internal/sitechecker/monitor.go:737-805 | in every later state of the run, a failure, death or result reported under a lease that has expired or was superseded leaves the whole store unchanged and is refused |
| `RunTheorems.LeaseExpires` | internal/sitechecker/monitor.go:704-735 | a lease has authority exactly until it expires right after the grant, and never at or past its expiry in any later state |
| `RunTheorems.LeaseSuperseded` | internal/sitechecker/monitor.go:704-735 | once another lease of the job is handed out, the earlier one never has authority again |
| `RunTheorems.LeaseUnderway` | internal/sitechecker/monitor.go:728-734 | as long as a lease token is on any job, it is on its own job, whose record is the one of the grant |
| `RunTheorems.GrantRecord` | internal/sitechecker/monitor.go:704-735 | a grant finds the job under no lease, raises the attempt and gives authority until the expiry |
| `RunTheorems.RetryWaits` | internal/sitechecker/monitor.go:737-759 | a job reported failed waits: whatever happens before the next claim call, it is over or claimable exactly from its retry time on while attempts remain |
| `RunTheorems.RevokedForever` | internal/sitechecker/monitor.go:457-481 | a lease token that is off its job never gains authority again in the rest of the run |
| `RunTheorems.OneVerdictPerLease` | internal/sitechecker/monitor.go:862-916 | each lease yields at most one accepted result, failure or death |
| `RunTheorems.SpentForever` | internal/sitechecker/monitor.go:509-520 | a publication token no job is waiting under is never waited under again |
| `RunTheorems.RecoveryRevokesClaims` | internal/sitechecker/monitor.go:679-702 | after a topology recovery no claim issued earlier alters any job at any later time; every scheduled or queued job can be claimed again at once while attempts remain, and no other job is touched |
| `RunTheorems.RunGood` | internal/sitechecker/monitor.go:223-1012 | every reachable state satisfies the index agreement and all facts about the run |
| `ClaimTheorems.ClaimIsExactSelection` | internal/sitechecker/monitor.go:483-563 | one claim call hands out at most the limit, different monitors, fresh tokens and full leases; an eligible row is passed over only for rows before it, new jobs come only after every eligible row, a due monitor waits only behind monitors before it |
| `ClaimRuns.OverlappingClaimsDisjoint` | internal/sitechecker/monitor.go:442-564 | claims whose leases overlap are disjoint unless the job was released, recovered, reported failed, or its processing lease expired in between |
| `ClaimRuns.OneTimeoutClaimsDisjoint` | internal/sitechecker/runtime.go:158-160 | with grants at least as long as the claim, overlapping claims are disjoint absent a release, a reported failure of the job or a recovery |
| `ClaimRuns.PublicationFencing` | internal/sitechecker/monitor.go:623-677 | at any later state of the run, a confirm or release changes the store exactly when the job is still in the very record its claim handed out and the lease has not run out |
| `ClaimRuns.ClaimClears` | internal/sitechecker/monitor.go:457-481 | for any order of the sweep, a claim call at or past the expiry of a processing job ends it, hands it out again or leaves it claimable at once |
| `ClaimRuns.ClaimLeavesHeld` | internal/sitechecker/monitor.go:483-520 | until its publication lease runs out a claimed job is left exactly as it is by every other claim call |
| `ClaimTheorems.HandedOutCount` | internal/sitechecker/monitor.go:509-563 | the number of jobs handed out is the number of rows and monitors picked |
| `Lifecycle.StepAdvances` | internal/sitechecker/monitor.go:442-916 | how any operation may move any job: terminal is final, tokens are never reused, attempts only grow by a grant, only the named operations put a job back |
| `Lifecycle.StepRemembers` | internal/sitechecker/monitor.go:1136-1142 | identifiers and tokens once drawn stay on record |
| `RunInvariants.StepGood` | internal/sitechecker/monitor.go:223-1012 | every operation keeps the facts: identifiers, slots, one verdict per lease, one result per job, streaks, grants |
| `RunInvariants.DueIdentifierIsNew` | internal/sitechecker/monitor.go:546-558 | the identifier of a due check belongs to no job of the run so far |
| `RunInvariants.RandomIsNew` | internal/sitechecker/monitor.go:592-621 | a random job identifier belongs to no job, periodic or manual |
| `RunInvariants.UpdateGood` | internal/sitechecker/monitor.go:299-377 | an update keeps every fact: disabling, enabling, interval and semantic changes included |
| `RunInvariants.RecordGood` | internal/sitechecker/monitor.go:862-916 | recording a result keeps every fact |
| `RunInvariants.ClaimedGood` | internal/sitechecker/monitor.go:442-564 | sweeping, claiming again and adding jobs together keep every fact |
| `RunInvariants.OneJobGood` | internal/sitechecker/monitor.go:509-559 | adding or changing one job, with what was newly drawn for it, keeps every fact |
| `StoreInvariants.UpdateKeepsInv` | internal/sitechecker/monitor.go:299-377 | index agreement after an update |
| `StoreInvariants.DeleteKeepsInv` | internal/sitechecker/monitor.go:409-436 | index agreement after a deletion: nothing refers to the monitor any more |
| `StoreInvariants.SweepKeepsInv` | internal/sitechecker/monitor.go:457-481 | index agreement after a swept row |
| `StoreInvariants.FinishKeepsInv` | internal/sitechecker/monitor.go:833-860 | index agreement after a job ends, with eviction from the history |
| `StoreInvariants.AddCheckKeepsInv` | internal/sitechecker/monitor.go:862-916 | index agreement after a recorded result |
| `StoreInvariants.ResolveKeepsInv` | internal/sitechecker/monitor.go:391-407 | index agreement after an incident is resolved, with eviction from the history |
| `Identifiers.JobIDInjective` | internal/sitechecker/queue.go:1153-1158 | two planned checks share an identifier only if they are the same monitor at the same instant |
| `Identifiers.RandomIsNotDerived` | internal/sitechecker/monitor.go:1136-1142 | a random job identifier is never a derived one |
| `Identifiers.AlertKeyInjective` | internal/sitechecker/postgres_repository.go:1526 | two alert keys are equal only for the same incident and failure count |
| `Priority.TopOfUnique` | internal/sitechecker/monitor.go:499-507 | the priority selection is determined: there is only one way to pick |
| `Priority.PrefixIsTop` | internal/sitechecker/monitor.go:509-520 | a prefix of the sorted candidates is exactly the selection |
| `Priority.Sort` | internal/sitechecker/monitor.go:499-507 | sorting by the strict order on two times and the identifier keeps exactly the candidates |
| `MonitorStores.MonitorStore.constructor` | internal/sitechecker/monitor.go:184-199 | an empty valid store, at the start of a run |
| `MonitorStores.MonitorStore.Create` | internal/sitechecker/monitor.go:223-260 | one step of the run; result or error as specified |
| `MonitorStores.MonitorStore.Update` | internal/sitechecker/monitor.go:299-377 | one step of the run; a failed update leaves the run as it was but for the clock |
| `MonitorStores.MonitorStore.ApplyUpdate` | internal/sitechecker/monitor.go:299-377 | the fields represent the updated store; on failure no field changes at all |
| `MonitorStores.MonitorStore.Revise` | internal/sitechecker/monitor.go:348-373 | the monitor's own record after an update |
| `MonitorStores.MonitorStore.FinishActiveJob` | internal/sitechecker/monitor.go:833-860 | the active job ends as dead, is retired and leaves the index |
| `MonitorStores.MonitorStore.ResolveOpenIncident` | internal/sitechecker/monitor.go:391-407 | the open incident is resolved and retired |
| `MonitorStores.MonitorStore.Delete` | internal/sitechecker/monitor.go:409-436 | one step of the run; monitor, jobs, checks and incidents are gone |
| `StoreLoops.DropJobs` | internal/sitechecker/monitor.go:420-428 | the loop removes exactly the monitor's jobs |
| `StoreLoops.DropIncidents` | internal/sitechecker/monitor.go:430-434 | the loop removes exactly the monitor's incidents |
| `MonitorStores.MonitorStore.ClaimDueJobs` | internal/sitechecker/monitor.go:442-564 | one step of the run under an exact plan; the returned records are exactly the jobs handed out, as stored |
| `MonitorStores.MonitorStore.SweepRows` | internal/sitechecker/monitor.go:457-481 | the sweep meets every row once, in any order, and does to the store what the specification does |
| `MonitorStores.MonitorStore.FinishExhaustedJob` | internal/sitechecker/monitor.go:566-590 | an exhausted job ends and a periodic one plans the monitor's next check |
| `StoreLoops.RetryCandidates` | internal/sitechecker/monitor.go:483-497 | collects exactly the claimable rows |
| `StoreLoops.TakeRows` | internal/sitechecker/monitor.go:509-523 | claims the first sorted rows up to the limit, each under its own token, from unchanged records |
| `StoreLoops.RecoverRows` | internal/sitechecker/monitor.go:683-700 | recovers exactly the scheduled and queued rows and counts them |
| `StoreLoops.BearJobs` | internal/sitechecker/monitor.go:536-562 | scanning all monitors in order picks exactly the first due ones and adds their planned jobs |
| `MonitorStores.MonitorStore.CreateManualJob` | internal/sitechecker/monitor.go:592-621 | one step of the run; an existing live job is returned instead of a new one |
| `MonitorStores.MonitorStore.MarkJobPublished` | internal/sitechecker/monitor.go:623-644 | one step of the run; confirmed only under a standing claim |
| `MonitorStores.MonitorStore.ReleaseJobPublish` | internal/sitechecker/monitor.go:646-666 | one step of the run; released only under a standing claim |
| `MonitorStores.MonitorStore.RecoverQueuedJobsAfterTopologyLoss` | internal/sitechecker/monitor.go:679-702 | one step of the run; returns the number of scheduled and queued jobs there were |
| `MonitorStores.MonitorStore.MarkJobProcessing` | internal/sitechecker/monitor.go:704-735 | one step of the run; grants a lease or says why not |
| `MonitorStores.MonitorStore.MarkJobFailed` | internal/sitechecker/monitor.go:737-759 | one step of the run; accepted only under authority |
| `MonitorStores.MonitorStore.MarkJobDead` | internal/sitechecker/monitor.go:761-795 | one step of the run; accepted only under authority |
| `MonitorStores.MonitorStore.AddCheck` | internal/sitechecker/monitor.go:862-916 | one step of the run; result or error as specified, the late duplicate test included |
| `MonitorStores.MonitorStore.UpdateIncidentOf` | internal/sitechecker/monitor.go:952-996 | opens, counts up or resolves the monitor's incident |
| `StoreLoops.PushProcessed` | internal/sitechecker/monitor.go:918-934 | set and window agree and are the most recent entries; head and list stay bounded |
| `StoreLoops.PushJob` | internal/sitechecker/monitor.go:936-950 | the window is the most recent entries; only a terminal job pushed out loses its record |
| `StoreLoops.PushIncident` | internal/sitechecker/monitor.go:998-1012 | the window is the most recent entries; only a resolved incident pushed out is forgotten |
| `Sequences.Compact` | internal/sitechecker/monitor.go:946-949 | compaction keeps the window, resets a head past the capacity whatever the length test says, and leaves a list of at most twice the capacity |
| `Sequences.AppendRemembers` | internal/sitechecker/monitor.go:936-944 | appending and dropping the oldest of a full window is remembering the most recent entries |
| `MonitorStores.MonitorStore.Stats` | internal/sitechecker/monitor.go:1069-1105 | counts over the stored checks, last check and status, and consecutive failures over the whole run |
| `AlertTheorems.AlertsSpaced` | internal/sitechecker/postgres_repository.go:1511-1550 | over any sequence of results: every alert met its threshold under an enabled policy, alerts of one incident are at least the cooldown apart, the stored count is the number ever inserted |
| `AlertTheorems.KeysNeverCollide` | internal/sitechecker/postgres_repository.go:1526-1541 | no two alerts ever inserted share a key, and a failed result inserts an alert exactly when the policy asks for one: the conflict branch is never taken |
| `AlertTheorems.FinalForever` | internal/sitechecker/postgres_repository.go:1146-1197 | delivered and dead are final, and a row that is gone does not come back |
| `AlertTheorems.ClaimsBounded` | internal/sitechecker/postgres_repository.go:1063-1107 | no event is claimed more often than the highest limit the claims were given, and its attempt count says how often |
| `AlertTheorems.OldTokensDoNothing` | internal/sitechecker/postgres_repository.go:1146-1197 | a mark from an older claim never changes the event |
| `AlertTheorems.LeaseCoversDispatch` | internal/sitechecker/config.go:315-318 | within the claim, delivery, finalize and slack budgets, under at least the enforced minimum lease, nobody else claims the event and the mark takes effect |
| `AlertTheorems.EndsExactly` | internal/sitechecker/alert.go:217-250 | in any step of any run a live alert is given up exactly when a claim finds its attempts used up, or a dispatch of a dispatcher that is not being stopped, under its standing claim, is refused for good or fails with the attempts used up; it is delivered exactly when such a dispatch was sent |
| `AlertTheorems.DispatchWaits` | internal/sitechecker/alert.go:229-250 | a failed dispatch that does not end the event leaves it waiting the longer of backoff and requested delay, and claimable exactly from then on; a stopped dispatcher marks nothing |
| `AlertTheorems.AttemptsKnown` | internal/sitechecker/postgres_repository.go:1085-1107 | a dispatch under a standing claim decides by the attempt count the row still has |
| `AlertTheorems.OutboxNeverStuck` | internal/sitechecker/postgres_repository.go:1063-1107 | the first claim at or past the time of a live alert ends it or claims it, unless the batch was filled with alerts before it |
| `AlertTheorems.RunGood` | internal/sitechecker/postgres_repository.go:1461-1550 | every reachable state of the tables keeps the facts about incidents, alerts and rows |
| `Alerts.KeyIsNew` | internal/sitechecker/postgres_repository.go:1526-1541 | the key of the next alert is on no row |
| `AlertRepositories.AlertRepository.UpsertIncidentAndAlert` | internal/sitechecker/postgres_repository.go:1461-1550 | one step of the run: incident upsert, alert decision, insertion |
| `AlertRepositories.AlertRepository.DecideAlert` | internal/sitechecker/postgres_repository.go:1511-1549 | an alert is inserted and counted exactly when the policy asks for one and the key is free |
| `AlertRepositories.AlertRepository.ClaimAlerts` | internal/sitechecker/postgres_repository.go:1041-1144 | one step of the run: exhausted rows die, the first claimable rows are claimed and returned |
| `AlertRepositories.AlertRepository.MarkAlertDelivered` | internal/sitechecker/postgres_repository.go:1146-1168 | one step of the run; stale exactly when the claim no longer stands |
| `AlertRepositories.AlertRepository.MarkAlertFailed` | internal/sitechecker/postgres_repository.go:1170-1197 | one step of the run; stale exactly when the claim no longer stands |
| `AlertRepositories.SweepRows` | internal/sitechecker/postgres_repository.go:1065-1079 | exactly the exhausted rows become dead |
| `AlertRepositories.SelectCandidates` | internal/sitechecker/postgres_repository.go:1085-1095 | exactly the first claimable rows in order |
| `Topology.RecoveredWasHandled` | internal/sitechecker/queue.go:283-316 | recovered never exceeds recorded; every recovered generation was followed by a successful handler run begun after it was recorded; a failed run marks nothing and its caller gets the error |
| `Topology.ReturnedMeansRecovered` | internal/sitechecker/queue.go:290-316 | a report that returns without error while a handler is set has its own loss recovered: a handler run begun after it succeeded, and took effect after it |
| `LossRecovery.DeclareIsProtected` | internal/sitechecker/queue.go:541-551 | threads reporting losses run together with the protocol: the declaration that follows a report which returned without error is a step the protocol allows, because some thread's handler run took effect in the store after that loss was recorded |
| `LossRecovery.JointLinked` | internal/sitechecker/queue.go:283-316 | every joint step keeps the link: a thread inside a report is a reconciler that has reported, and a recovered one as soon as a handler run took effect since |
| `Topology.StepSound` | internal/sitechecker/queue.go:273-316 | every step of any thread keeps the counters and the mutex sound |
| `MemoryQueue.InMemoryQueue.constructor` | internal/sitechecker/queue.go:57-64 | an empty queue |
| `MemoryQueue.InMemoryQueue.BeginPublish` | internal/sitechecker/queue.go:70-88 | marks the identifier, or reports a live one as success without enqueuing |
| `MemoryQueue.InMemoryQueue.FinishPublish` | internal/sitechecker/queue.go:90-97 | the message is buffered or its identifier released |
| `MemoryQueue.InMemoryQueue.Buffer` | internal/sitechecker/queue.go:174-188 | bounded, without a second message of the same identifier |
| `MemoryQueue.InMemoryQueue.Take` | internal/sitechecker/queue.go:105-150 | the oldest message is delivered, or lost with its identifier when the hand-off is cancelled; an empty buffer blocks, or ends the consumer once the queue is closed |
| `MemoryQueue.InMemoryQueue.AckDelivery` | internal/sitechecker/queue.go:119-122 | the identifier is released |
| `MemoryQueue.InMemoryQueue.NackDelivery` | internal/sitechecker/queue.go:123-139 | retried with the next attempt, never above the maximum, or kept as a dead letter |
| `MemoryQueue.InMemoryQueue.RequeueDelivery` | internal/sitechecker/queue.go:140-146 | put back unchanged, or the identifier released |
| `MemoryQueue.InMemoryQueue.Close` | internal/sitechecker/queue.go:158-166 | closed, and consumers of an empty buffer learn of it |
| `MemoryQueue.RunConserves` | internal/sitechecker/queue.go:70-188 | over every run in which deliveries are settled once: live identifiers are exactly those being published, buffered or unsettled when no hand-off is cancelled, all disjoint, and the buffers are bounded |
| `MemoryQueue.NackConserves` | internal/sitechecker/queue.go:123-139 | a retry never carries an attempt above the maximum, and conservation holds |
| `MemoryQueue.PublishReaches` | internal/sitechecker/queue.go:70-97 | a publication reported as successful put its message into the buffer exactly when its identifier was not live |
| `MemoryRuns.NoStrandedInMemory` | internal/sitechecker/queue.go:70-188 | over the in-memory queue: while no publication found its identifier live, no hand-off was cancelled and every message put back was taken, each queued job's own message is buffered or with a worker that has no answer yet |
| `MemoryRuns.Interleaves` | internal/sitechecker/queue.go:70-188 | such a run is an interleaving of the protocol whose queue is never deleted, so all its theorems carry over |
| `MemoryRuns.ServedExactly` | internal/sitechecker/queue.go:70-188 | the exact condition over every run: all publications reported as successful have a message of use under way in every state, for as long as their jobs await it, if and only if no step was harmful: swallowed by an identifier that stands for nothing any more, an awaited message refused by the buffer, or lost in a hand-off |
| `MemoryRuns.QueuedIsUnderway` | internal/sitechecker/queue.go:70-188 | so while no step is harmful every queued job has a message of use under way |
| `MemoryTheorems.StepExact` | internal/sitechecker/queue.go:70-188 | each single step keeps that promise exactly when it is not harmful, and a harmful one leaves its job without any message |
| `MemoryRuns.HarmStrands` | internal/sitechecker/runtime.go:175-194 | a harmful step strands its job: at once if it is queued, otherwise with the confirmation its scheduler sends next |
| `MemoryRuns.StrandedInMemory` | internal/sitechecker/runtime.go:307-317 | an input that strands a job: a failure reported with any retry delay, the job claimed, published and confirmed again while its last delivery is unsettled, then the delivery settled |
| `MemoryRuns.RefusedAfterLive` | internal/sitechecker/queue.go:83-97 | another: a publication told that its identifier is live while another one is under way, which the buffer then refuses |
| `MemoryRuns.AwaitedLost` | internal/sitechecker/queue.go:105-150 | two more: an awaited message in a cancelled hand-off, and one put back into a full or closed buffer |
| `MemoryRuns.PromisesInMemory` | internal/sitechecker/runtime.go:158-344 | attempt bound and configuration in force hold over the in-memory queue in every run, whatever slips |
| `MonitorMetrics.Metrics.RecordResult` | internal/sitechecker/metrics.go:172-205 | totals, durations and times, and in all three maps exactly the tracked monitors with the monitor's new entries |
| `MonitorMetrics.Metrics.RemoveMonitor` | internal/sitechecker/metrics.go:107-131 | the monitor leaves the window from the middle and all three maps |
| `MonitorMetrics.Push` | internal/sitechecker/metrics.go:207-226 | the tracked set and window are the most recent monitors; a monitor pushed out leaves all three maps |
| `MonitorMetrics.CutOut` | internal/sitechecker/metrics.go:123-130 | the entry is cut out and the order of the others kept |
| `Backoff.DoublingDelay` | internal/sitechecker/alert.go:252-267 | equals min(initial * 2^(attempt-1), maximum) for all attempts and non-negative 64-bit bounds, without overflow |
| `Backoff.CappedMonotone` | internal/sitechecker/queue.go:1112-1127 | the delay never shrinks with more attempts |
| `Backoff.ReconnectDelay` | internal/sitechecker/queue.go:1103-1110 | between half the base and the base |
| `Backoff.CheckJobRetryDelay` | internal/sitechecker/runtime.go:424-436 | the same closed form with 250 ms and 30 s |
| `Backoff.RequeueBase` | internal/sitechecker/runtime.go:404-407 | the same closed form by a loop that cuts at each turn |
| `Backoff.InfrastructureRequeueBackoff.NextDelay` | internal/sitechecker/runtime.go:398-416 | between the base and five quarters of it, one more failure counted |
| `Backoff.InfrastructureRequeueBackoff.Reset` | internal/sitechecker/runtime.go:418-422 | no failures counted |

## Left out

- The HTTP API, pagination, seeding, `List`, `ListChecks`, `ListIncidents`, `Get` and `Count`: reading and plumbing.
- Timestamps and texts kept only for display (`CreatedAt`, `UpdatedAt`, `PublishedAt`, `ProcessingStartedAt`, `CompletedAt`, `LastError`, latency), and the floating-point uptime and average latency of `Stats`; the duration sum of the metrics is a real number without rounding.
- The URL policy, URL length and parsing: one boolean verdict, passed to `Create` and `Update`.
- The job transitions of the PostgreSQL repository as a second implementation: each is taken as the same atomic step; isolation levels, `SKIP LOCKED`, row scanning and migrations are not modelled.
- AMQP connections, channels and deadlines, and the retry loop inside the RabbitMQ `Publish`: only accept, confirm, deliver, settle, requeue, delete, passive check, lock and declare are steps. Losing single messages by purge or expiry while the queue exists is not a step, and neither is a queue set up without a topology loss handler.
- Rejecting a RabbitMQ delivery with a republished next attempt: the worker never asks for it, it requeues the message unchanged.
- `Nack` with requeue of the in-memory queue is proved for the queue (`MemoryQueue.NackConserves`) and is no step of the runs with workers, who put messages back unchanged; a worker stopped for good while it holds a delivery simply takes no further step.
- That a processing lease outlives its check: the configured minimum budgets only one database operation, so it is not claimed.
- Retention deletes of jobs and checks; for alerts and incidents any removal of rows is a step of the run.
- Wrap-around of the 64-bit counters in the metrics, Prometheus text and dependency gauges.
- `Retry-After` parsing: the requested delay is an arbitrary natural number.
- Sorting is modelled as repeated selection of the least element, collecting from a map as a set; the order of equal elements does not arise because the order is strict.
- `retryJobStateTransition`, the dispatcher's and scheduler's tickers, and graceful shutdown.
