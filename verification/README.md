# Homefinder, verified

A Dafny model of the parts of Homefinder whose correctness spans several functions: the scrape coordinator, the
encrypted artifact store, and a few self-contained algorithms.

**The coordinator** (`Contracts` to `WorkerProtocol`) leases listings to scrape workers under random tokens, paces
portal requests, accounts for proxy bytes, moves each portal's (release, epoch) pointer and retires old results.
Every database transaction is one function of the database value in `ScrapeQueue`, `SourceBudget`,
`ParserReleases` or `Redirects`; `Coordinator` makes one transition system of them, so every statement about
`Run` is about every interleaving of every caller. A step carries what is outside the model: the request, the
clock readings (two or three per transaction, not ordered unless a statement says so), query answers that depend
on row locks, fresh identifiers and verdicts of other components. `Changes.StepCommits` reduces every transaction
to one of twenty permitted changes or none, and each invariant is proved change by change. `QueueRules`,
`CompletionRules` and `BudgetRules` say in terms of the rows alone when each operation is accepted and what it leaves
behind, apart from the functions that define it. Statements about whole histories
use a log and the set of drawn tokens, which no transaction reads.

The repositories themselves are classes over a mutable `Database` whose fields are the tables
(`QueueRepository`, `BudgetRepository`, `RegistryRepositories`, `RecoveryRepository`, `RecoveryCampaign`). Each
method searches, loops and assigns as the source does; its contract equates the new tables and the reply with the
transaction function and keeps the database's invariant. `Worker` is the client: one round of a scrape worker, call
by call, for any answers.

**The artifact store** (`ArtifactStore`) is a machine whose events lie between two points at which a process may
stop or be overtaken, and a class whose methods let any other processes act wherever the lock is free.

**The algorithms** are Nuxt graph hydration (`Nuxt`), stratified benchmark selection (`Benchmark`), the capacity
simulator (`Capacity`), keyset paging (`Paging`), size alerts (`SizeAlerts`), retention dates and billing cycles
(`Calendar`) and ISO timestamps as text (`IsoText`).

## Where the code does not do what one would expect

The model follows the code in each case; the named lemmas state when the expectation holds and show where it does not.

- `record_outcome` grants a direct retry without testing `max_attempts`. On the last attempt the task then waits
  for a retry that no claim may ever make (`Bounds.StrandsExactlyOnLastFallback`, `Bounds.StrandedForever`,
  `Witnesses.FallbackStrands`).
- A proxy outcome is reconciled in the billing cycle of the outcome, not of the start. Conservation breaks exactly
  when the two differ, and one ledger can fall below zero (`ProxyLedger.ConservesExactly`,
  `Witnesses.CrossingCycleLosesBytes`).
- An outcome that passes every other check is still rejected if it is a success and the current UTC day does not have
  more starts than successes, whatever day its own start was counted on (`DayTallies.SuccessAcceptedExactly`). So a
  success right after midnight is lost, and after one from the day before even a success of today's own start
  (`MidnightWitness.SuccessesRejected`).
- A result expires two years after its capture in the capture's own zone, but is purged by a UTC cutoff. For
  captures stamped around the end of some Februaries in another zone the purge comes a day early
  (`Calendar.PurgeIsSafeExactly`, `RecoveryWitness.ServedResultIsPurged`).
- A completion is acknowledged again under any attempt of the task with the same pin, not only the accepted one,
  and the lease's URL and expiry are not compared (`Completion.DifferingRetryIsRejected`). A discovery completion is
  acknowledged without looking at worker or token at all (`Completion.DiscoveryRetry`). Both happen:
  `CompletionWitness.GivenUpAttemptIsAcknowledged`, `CompletionWitness.StrangerIsAcknowledged`.
- A redirect handoff is not fenced by epochs: it is accepted for any running lease, one of a withdrawn epoch included
  (`Epochs.HandoffAcceptedExactly`, `StaleHandoffWitness.StaleLeaseIsHandedOff`).
- A retried `complete` is acknowledged, a retried `complete_artifact_replay` is always refused
  (`Completion.RetryIsAcknowledged`, `Completion.ReplayRetryIsRefused`, `RecoveryWitness.ReplayRetryFails`).
- `rollback` reads its target in one transaction and changes the pointer in another. It acts on what it has read
  exactly if the caller names the epoch of the reading (`Epochs.RollbackActsOnItsReading`). If the caller names a later
  one, the rollback may leave the release in use that it should withdraw (`StaleRollbackWitness.StaleTargetIsTaken`).
- `outcome` joins the activation history, but no reachable result is ever filtered by it
  (`Results.ServableExactly`).
- A store interrupted between writing its file and committing its row leaves a file that no later operation
  removes (`ArtifactStore.OrphansExactly`, `ArtifactStore.OrphanFilesStay`, `ArtifactStore.OneOrphan`).
- Nothing resumes a paused recovery campaign, and what is held after a release's remainder batch stays held until
  another release is activated (`RecoveryCampaign.ClosedForGood`, `RecoveryCampaign.HeldForGood`).
- The benchmark selection is deterministic but not independent of the input order: of two items with one artifact and
  content, or tied within a stratum, the first one met comes first (`Benchmark.OrderFreeExactly`,
  `Benchmark.SharedIdsKeepInputOrder`).

## Model

| member | source | states |
|---|---|---|
| `Changes.StepCommits` | src/homefinder/scrape_queue/repository.py:96-1063 | every transaction of the coordinator, on every fenced database, commits exactly one of the permitted changes with the guards its code has checked, or nothing; the change carries the step's own subject and clock |
| `Effects.ChangeEffect` | src/homefinder/scrape_queue/repository.py:984-1063 | what a change does to the whole task table and to the history: every row it is not about stays as it is |
| `Fence.StepFenced` | src/homefinder/scrape_queue/repository.py:1130-1200 | any one transaction keeps the fencing invariant: a task runs iff all four lease fields are set, otherwise none is; attempts are numbered 1..attempt_count under distinct tokens; only the newest attempt is open, exactly while the task runs |
| `LeaseLife.ReachableFenced` | src/homefinder/scrape_queue/repository.py:324-426 | the fencing invariant holds after every interleaving |
| `LeaseLife.RunSettles` | src/homefinder/scrape_queue/repository.py:324-426 | from any fenced database, no interleaving revives a dead token, changes a finished task or touches its attempts |
| `LeaseLife.EndedLeaseIsDead` | src/homefinder/scrape_queue/repository.py:1195-1200 | a step after which the task no longer runs under its token leaves no task running under it |
| `LeaseLife.EndingKillsTheToken` | src/homefinder/scrape_queue/repository.py:929-1029 | a success, failure, deferral, completion, replay or handoff that changes anything leaves its token dead |
| `LeaseLife.DeadLeaseChangesNothing` | src/homefinder/scrape_queue/repository.py:1142-1181 | a request of any lease operation whose task does not run under its token changes nothing |
| `QueueRules.OnlyTheHolderActs` | src/homefinder/scrape_queue/repository.py:1130-1182 | a request under a lease changes anything only for the worker that holds it, unexpired at every reading; except for the handoff it must be registered and the pin current, and the queue's own operations compare the whole lease |
| `QueueRules.AdmittedExactly` | src/homefinder/scrape_queue/budget.py:406-452 | the budget's lease check on a fenced database is holding and vouching and the same snapshot and pin; token and attempt cannot disagree |
| `LeaseLife.ClearedTokenNeverAccepted` | src/homefinder/scrape_queue/budget.py:225-236 | once any step ends a lease, nothing presented under its token changes anything, after any further steps, by any worker, for any task and operation |
| `LeaseLife.TerminalIsFinal` | src/homefinder/scrape_queue/repository.py:1015-1029 | succeeded and failed tasks keep their row and their attempts through every later interleaving |
| `LeaseLife.ClaimRowUnique` | src/homefinder/scrape_queue/repository.py:365-384 | the claim query has exactly one answer for every database, worker and set of locked rows |
| `LeaseLife.ClaimsAreDisjoint` | src/homefinder/scrape_queue/repository.py:365-401 | a second claim right after a first never hands out the same task |
| `QueueRules.QueryPicksFirst` | src/homefinder/scrape_queue/repository.py:365-384 | the query answers with the first eligible row by priority, availability, age and identifier, and with none iff no row is eligible: of the portal and classes, waiting, due, with an attempt left, not locked, and only discovery without an active release |
| `QueueRules.ClaimGrantedExactly` | src/homefinder/scrape_queue/repository.py:324-426 | on every database and for every answer of the query, a lease is granted iff there is a row, the worker is registered and healthy with a heartbeat recent at both readings, and it advertises the release the lease is pinned to: the pointer's, or for discovery the task's own; otherwise nothing changes |
| `QueueRules.GrantedLease` | src/homefinder/scrape_queue/repository.py:386-426 | the lease handed out and every row a granted claim writes; its release is one the worker advertises |
| `Priorities.LiveWorkFirst` | src/homefinder/scrape_queue/repository.py:67-72 | in every reachable database a claim takes live work if it may take any, discovery only when nothing else is left, and within a class what became available first |
| `AttemptLog.AttemptsTellTheTask` | src/homefinder/scrape_queue/repository.py:1005-1062 | in every reachable database a task is finished iff it has an end time, its last attempt ended then with the task's own result, no other attempt ever succeeded or failed for good, and a task fails for a retriable reason only with its attempts used up |
| `AttemptLog.BackoffDoubles` | src/homefinder/scrape_queue/repository.py:1012-1016 | the wait after transport errors starts at 30 seconds, doubles with every attempt, and is capped at six hours from the eleventh on |
| `QueueRules.SucceedExactly` | src/homefinder/scrape_queue/repository.py:929-947 | accepted iff code and size are admitted and the lease is current at both readings; closes task and attempt with that code and writes nothing else |
| `QueueRules.FailExactly` | src/homefinder/scrape_queue/repository.py:949-961 | accepted iff the code is a failure and the lease current; a transport error with an attempt left makes the row available at the end of its backoff, anything else fails it for good |
| `QueueRules.DeferExactly` | src/homefinder/scrape_queue/repository.py:963-982 | accepted iff the code is a reason to wait, the time lies ahead and the lease is current; the row becomes available at the requested time, with the attempt given back out of budget, and fails on the last attempt otherwise |
| `QueueRules.PutOffUntilDue` | src/homefinder/scrape_queue/repository.py:1005-1029 | in every reachable database, after an accepted retry or deferral no continuation whose claims read an earlier clock touches the task before its time: now plus min(21600, 30·2^(n-1)) seconds, or the requested time |
| `QueueRules.WaitsUntilDue` | src/homefinder/scrape_queue/repository.py:369-374 | a waiting task stays as it is through every continuation in which each claim reads a clock before its availability |
| `Bounds.ClaimsBounded` | src/homefinder/scrape_queue/repository.py:369-397 | over every run a task's attempt count is its claims less its refunds and never exceeds max_attempts |
| `Bounds.LeaseLifetime` | src/homefinder/scrape_queue/repository.py:915-926 | no lease outlives lease_started_at + max_lease_seconds, however often it is renewed |
| `Bounds.HeartbeatNeverShortens` | src/homefinder/scrape_queue/repository.py:910-927 | while no earlier lease clock reading exceeds the heartbeat's, an accepted heartbeat never moves the expiry back |
| `QueueRules.HeartbeatExactly` | src/homefinder/scrape_queue/repository.py:910-927 | accepted iff the lease is current and now is before its start plus the longest lifetime; task and reply then carry the capped extension, and nothing else changes |
| `QueueRules.ReapExactly` | src/homefinder/scrape_queue/repository.py:1031-1063 | every expired, unlocked lease ends, or with a full limit the earliest of them; its task waits again from now on or has failed with its last attempt, and its attempt is closed as expired |
| `Bounds.LastAttemptDecides` | src/homefinder/scrape_queue/repository.py:949-1029 | in every reachable database an accepted deferral fails the task iff it is the last attempt and not a refund, an accepted failure is put off iff it is a transport error with an attempt left, and the row says what the reply says |
| `Bounds.StrandsExactlyOnLastFallback` | src/homefinder/scrape_queue/budget.py:164-236 | a step of any run leaves a waiting task unclaimable iff it reports a denial or an infrastructure failure of the proxy route on the task's last attempt and meets the guards of `record_outcome`: current lease, granted matching permit, no outcome yet, valid byte count and Retry-After, room in the cycle |
| `Bounds.StrandedForever` | src/homefinder/scrape_queue/budget.py:225-236 | no later step ever changes such a task |
| `Bounds.WaitingIsClaimable` | src/homefinder/scrape_queue/repository.py:1017-1021 | in every run without such a report, every pending or deferred task has an attempt left |
| `Witnesses.FallbackStrands` | src/homefinder/scrape_queue/budget.py:225-236 | a concrete run of seven steps that leaves a task waiting for ever |
| `Completion.OneResultPerTask` | src/homefinder/scrape_queue/repository.py:546-672 | over every run a task gains at most one production result, and only by succeeding |
| `CompletionRules.CompleteExactly` | src/homefinder/scrape_queue/repository.py:428-672 | a first completion is accepted iff the outcome is well formed, fetched under this lease and not in the future, its expiry exists, its capture is new and the lease is current; it writes capture, pinned result, task and attempt, with the code for complete, partial or unkept captures |
| `CompletionRules.DiscoveryExactly` | src/homefinder/scrape_queue/repository.py:496-545 | a first discovery is accepted iff so and its artifact is new; it records the discovery and no result |
| `CompletionRules.ReplayExactly` | src/homefinder/scrape_queue/repository.py:820-902 | a replay is accepted iff the lease is a current one of a replay task, for the planned capture, once; its result expires with the original |
| `Completion.RetryIsAcknowledged` | src/homefinder/scrape_queue/repository.py:554-575 | after an acknowledged completion every retry of the same lease and outcome by the same worker succeeds and changes nothing, after any further steps, while the result is retained |
| `Completion.DifferingRetryIsRejected` | src/homefinder/scrape_queue/repository.py:554-576 | a completion for a task that has its result changes nothing, and succeeds iff outcome, pin and portal are the accepted ones and the lease names an attempt of the task under its own token and worker |
| `CompletionWitness.GivenUpAttemptIsAcknowledged` | src/homefinder/scrape_queue/repository.py:554-576 | a concrete run: a lease expires, the task is claimed again and completed, and the completion under the first lease, refused before, is then acknowledged |
| `Completion.ReplayRetryIsRefused` | src/homefinder/scrape_queue/repository.py:829-902 | once a replay is accepted, every completion of a replay of that task is refused and changes nothing, in any continuation |
| `RecoveryWitness.ReplayRetryFails` | src/homefinder/scrape_queue/repository.py:829-902 | a concrete run in which a replay is accepted and the same call, repeated at the same instant, refused |
| `Completion.DiscoveryRetry` | src/homefinder/scrape_queue/repository.py:496-507 | a repeated discovery completion changes nothing and succeeds iff capture, artifact and content are the recorded ones, whoever sends it |
| `CompletionWitness.StrangerIsAcknowledged` | src/homefinder/scrape_queue/repository.py:496-507 | a concrete run: a discovery completed by its worker is acknowledged for an unregistered worker of another portal |
| `Epochs.AuditChain` | src/homefinder/parser_releases/__init__.py:205-283 | in every reachable database a portal's audits are the gap-free epochs 1..e, each naming its predecessor's release; the pointer is the last audit; exactly the pointed release is active; every rollback onto another release left the old one revoked |
| `Epochs.EpochsIncrease` | src/homefinder/parser_releases/__init__.py:254-264 | epochs never go back, and while an epoch stays the pointer and the audits stay |
| `Epochs.ChangeAcceptedExactly` | src/homefinder/parser_releases/__init__.py:185-242 | on every database a pointer change is accepted iff the expected epoch, if given, is current, the release belongs to the portal and is not revoked, an activation has its verdict, and for each deployment both the candidate and the release in use are advertised by some healthy, recently seen worker of the portal; otherwise nothing changes |
| `Epochs.WithdrawnNeverReturns` | src/homefinder/parser_releases/__init__.py:148-183 | after a rollback that changes the release, in every continuation: the withdrawn one stays revoked, is never pointed at again, every change to it is rejected, none of its results is served, and a second rollback at the same epoch aims at it |
| `Epochs.StaleLeaseChangesNothing` | src/homefinder/scrape_queue/repository.py:1161-1181 | under an epoch the portal has left, no operation on a non-discovery task but the handoff changes anything |
| `Epochs.OldEpochNeverAccepted` | src/homefinder/scrape_queue/repository.py:1161-1181 | once a portal's pointer has moved, this holds for every lease of an earlier epoch after any further steps |
| `Epochs.HandoffAcceptedExactly` | src/homefinder/scrape_queue/redirects.py:35-70 | in every reachable database a handoff changes anything iff it names another portal's listing not handed over yet and the task runs unexpired under this worker and token; it succeeds iff so or already recorded; epochs play no part |
| `CompletionRules.HandoffRecords` | src/homefinder/scrape_queue/redirects.py:71-107 | what an accepted handoff writes: its record, and the end of task and attempt |
| `StaleHandoffWitness.StaleLeaseIsHandedOff` | src/homefinder/scrape_queue/redirects.py:48-107 | a concrete run in which a lease of epoch 1 is handed off under epoch 2 |
| `Epochs.RollbackActsOnItsReading` | src/homefinder/parser_releases/__init__.py:158-183 | whatever commits between the two transactions of a rollback, one that goes through names at least the epoch of its reading; the activations are those it read iff it names that epoch, and then its target is still the current one |
| `StaleRollbackWitness.StaleTargetIsTaken` | src/homefinder/parser_releases/__init__.py:158-183 | a concrete run in which a rollback naming a later epoch goes through with a target that is the release in use, and withdraws nothing |
| `Epochs.RegistrationIsPermanent` | src/homefinder/parser_releases/__init__.py:105-124 | once a build is registered, registering its hash again changes nothing in any continuation, and succeeds iff portal and provenance are the same |
| `Results.ServableExactly` | src/homefinder/scrape_queue/repository.py:674-730 | in every reachable database a stored result is served to its own listing iff it has not expired and its release is not revoked |
| `Results.ExpiresTwoYearsAfterCapture` | src/homefinder/scrape_queue/repository.py:582-590 | every stored result, replays included, expires two years after the capture it came from |
| `Results.PurgeDeletesNothingServable` | src/homefinder/operations/retention.py:90-117 | the daily purge deletes no result that could still be served, unless its capture is one of the boundary cases of `OutlivesItsCutoff` |
| `RecoveryWitness.ServedResultIsPurged` | src/homefinder/operations/retention.py:90-117 | a concrete run and a day on which the purge deletes a result that may still be served |
| `Calendar.PurgeIsSafeExactly` | src/homefinder/operations/retention.py:468-472 | no purge at any time deletes a capture's result before it expires iff its own zone does not put it in a longer two-year span than UTC does (with one exempted instant) |
| `Calendar.PurgedHasExpired` | src/homefinder/operations/retention.py:468-472 | within one time zone, what the two-year cutoff reaches has always expired, across all leap-year cases |
| `Calendar.EasternCapturePurgedEarly` | src/homefinder/scrape_queue/repository.py:582-590 | a capture at 00:30 on 1 March 2022, UTC+1, is purged before its result expires |
| `Calendar.BillingCyclePartitions` | src/homefinder/scrape_queue/budget.py:397-404 | a date belongs to the cycle of an anchor date iff it is not before it and before the next one |
| `Pacing.StartsAreSpaced` | src/homefinder/scrape_queue/budget.py:80-96 | over every run and for any clock, the i-th and j-th granted starts of a source are at least (j - i) minimum intervals apart |
| `BudgetRules.ReserveExactly` | src/homefinder/scrape_queue/budget.py:58-96 | a reservation is answered iff its byte count is valid and the lease admitted; a first one is granted iff pace, cooldown, pending fallback and both daily limits allow |
| `BudgetRules.NewStartRoute` | src/homefinder/scrape_queue/budget.py:98-151 | a new start goes by a proxy route iff it asks for bytes, no fallback is pending, the cycle has room and some route is registered, healthy and not quarantined for the portal; it is then the first such route; attempt, task, routes and quarantine after it |
| `BudgetRules.RefusalIsEarliest` | src/homefinder/scrape_queue/budget.py:80-97 | a refusal commits the day rollover alone and names the earliest time at which pace, cooldown and fallback allow a start, or the next UTC midnight if they already do; the same request is never granted before |
| `DailyCaps.DailyAttemptsCapped` | src/homefinder/scrape_queue/budget.py:89-96 | while the source's clock does not go back, no UTC day has more granted starts than the limit, and today's successes never exceed today's attempts |
| `DailyCaps.SuccessesCapped` | src/homefinder/scrape_queue/budget.py:193-196 | with at most k permits without outcome at any time, the success count never exceeds daily_success_limit - 1 + k, for any clock |
| `Changes.OutcomeAcceptedExactly` | src/homefinder/scrape_queue/budget.py:164-198 | on every fenced database, for any clock: an outcome is accepted iff lease, permit, byte count, Retry-After and allowance pass and, for a success, the rolled counter of successes is below that of starts; otherwise nothing changes |
| `BudgetRules.OutcomeOnRoutes` | src/homefinder/scrape_queue/budget.py:205-224 | an accepted infrastructure failure marks a registered route unhealthy; an accepted proxy denial keeps its health and quarantines it for the portal until the later of the old deadline and now + max(900 s, Retry-After); every other outcome leaves both tables as they are |
| `BudgetRules.OutcomeOnTask` | src/homefinder/scrape_queue/budget.py:193-237 | an accepted outcome is recorded on the attempt and uses up its reservation; only a denial or failure of the proxy ends the lease, for one direct retry at once or after the denial's delay |
| `BudgetRules.DeniedRouteRests` | src/homefinder/scrape_queue/budget.py:98-124 | over every run, after a proxy denial no start of that portal is newly granted on that route before the denial's delay is over |
| `BudgetRules.FailedRouteStaysOut` | src/homefinder/scrape_queue/budget.py:98-124 | over every run, after an infrastructure failure no start of any portal is newly granted on that route until it is registered again |
| `DayTallies.CountersAreTallies` | src/homefinder/scrape_queue/budget.py:287-352 | while the source's clock does not go back, what `snapshot` reports is the number of starts and of successes of the current UTC day |
| `DayTallies.SuccessAcceptedExactly` | src/homefinder/scrape_queue/budget.py:193-196 | over such runs a success that passes every other guard is accepted iff fewer successes than starts fall on the current UTC day |
| `MidnightWitness.SuccessesRejected` | src/homefinder/scrape_queue/budget.py:193-196 | a concrete run across midnight with two rejected successes: the first transaction of the new day, and one under a start of that same day |
| `Cooldown.CooldownRefinesHistory` | src/homefinder/scrape_queue/budget.py:193-204 | in every reachable database direct_denial_count is the number of direct denials since the last direct success, and cooldown_until the running maximum of the cooldowns imposed |
| `Cooldown.OutcomesFollowPolicy` | src/homefinder/scraper/denial_policy.py:98-144 | every recorded outcome carries exactly the delays of the policy for the streak it met: 6, 12 or 24 hours or Retry-After, and for proxies 15 minutes or Retry-After |
| `Cooldown.NoStartDuringCooldown` | src/homefinder/scrape_queue/budget.py:80-96 | no start of a source is granted before a cooldown imposed on it has passed |
| `Cooldown.NextStartIsDirect` | src/homefinder/scrape_queue/budget.py:98-145 | after a proxy denial or infrastructure failure the task's next start is direct and not before the stored deadline |
| `ProxyLedger.AllocationWithinAllowance` | src/homefinder/scrape_queue/budget.py:125-133 | no call order allocates more than 900,000,000 bytes in a billing cycle |
| `ProxyLedger.ConservesExactly` | src/homefinder/scrape_queue/budget.py:381-395 | a change keeps allocated = transferred + outstanding in every cycle iff it reconciles in the cycle of the start and refunds no reservation |
| `ProxyLedger.ProxyBytesConserved` | src/homefinder/scrape_queue/budget.py:98-140 | under the worker's protocol, in every cycle of every run, allocated = transferred + outstanding reservations, so transferred <= allocated <= 900,000,000 |
| `ProxyLedger.ReconciliationNeverRejects` | src/homefinder/scraper/coordinator.py:183-194 | while every reservation asks for 2,000,000 bytes, no reconciliation overruns the allowance, whatever its cycle |
| `WorkerProtocol.RefusedDeferralInProtocol` | src/homefinder/scraper/worker.py:113-118 | a worker that reserves once and defers as out of budget only after a refusal stays within that protocol, whatever all others do in between |
| `WorkerProtocol.RepeatedReservation` | src/homefinder/scrape_queue/budget.py:69-78 | after a granted reservation, whatever all parties do in between, every further reservation under the lease while it is current returns that permit and changes nothing, whatever it asks for |
| `Witnesses.CrossingCycleLosesBytes` | src/homefinder/scrape_queue/budget.py:381-395 | a concrete run across a cycle boundary after which the books no longer balance |
| `DenialPolicy.ReliefNeedsProxyEvidence` | src/homefinder/scraper/denial_policy.py:48-144 | an immediate direct retry without a denial needs evidence against the proxy from before the portal answered; a proxy denial always waits at least 15 minutes and Retry-After; only direct denials cool the source down; a route is marked unhealthy iff the proxy failed, and quarantined iff the portal denied through it |
| `DenialPolicy.ClassifiedExactly` | src/homefinder/scraper/denial_policy.py:48-92 | which evidence gives which classification: denial first, then fault of the proxy, and success for a 2xx status alone |
| `Worker.OneFetchPerPermit` | src/homefinder/scraper/worker.py:72-252 | for any answers a round fetches at most once, only under a granted permit and on its route, reports at most that outcome, defers as out of budget only when refused, and completes at most three times with one and the same outcome after a recorded success |
| `Worker.CallsExactly` | src/homefinder/scraper/worker.py:72-252 | for any answers, exactly which calls a round makes: each iff the answers so far lead to it, among them the classification reported, the deferral after a cooldown, the failure without one, and the outcome completed |
| `Worker.ScrapeWorker.RunOnce` | src/homefinder/scraper/worker.py:72-252 | the imperative round makes exactly the calls of the round's specification, and reports work iff it got past the claim |
| `Persistence.KeysStayUnique` | src/homefinder/scrape_queue/repository.py:137-146 | over every run no two tasks share an idempotency key |
| `QueueRules.OneLiveTaskPerListing` | src/homefinder/scrape_queue/repository.py:129-146 | over every run no listing of a snapshot has two live tasks, whatever releases they were admitted under |
| `QueueRules.EnqueueExactly` | src/homefinder/scrape_queue/repository.py:96-180 | accepted iff the listing is valid and the portal has an active release, or for a discovery the named release is the portal's and not revoked; takes the task with the same identity iff there is one, and otherwise writes one row, due at once or held |
| `QueueRules.PlanExactly` | src/homefinder/parser_recovery.py:155-233 | a replay is planned iff the pin is current, the result is of another release and has its capture, and the content has no replay under this release yet; the rows it writes |
| `WorkerRegistry.IdentityIsPermanent` | src/homefinder/scrape_queue/repository.py:287-322 | once a worker is registered, in every continuation its name belongs to that portal and deployment alone, and registers again only for them and at no earlier time |
| `WorkerRegistry.RegisterExactly` | src/homefinder/scrape_queue/repository.py:287-322 | a registration is accepted iff the name is new or the worker's own and not seen at a later time; it writes one row as advertised |
| `QueueRepository.ScrapeQueueRepository.Enqueue` | src/homefinder/scrape_queue/repository.py:96-180 | new tables and reply are those of the transaction, which returns the one task that already has the key; the database stays intact |
| `QueueRepository.ScrapeQueueRepository.ReapExpired` | src/homefinder/scrape_queue/repository.py:1031-1063 | reaping the selected rows one by one ends all of them at once, and the rows are the first `limit` expired, unlocked ones |
| `QueueRepository.ScrapeQueueRepository.Claim` | src/homefinder/scrape_queue/repository.py:324-426 | reaps in a transaction of its own, then claims the one answer of the query under a token never drawn before, as `QueueRules.ClaimGrantedExactly` and `GrantedLease` say |
| `QueueRepository.ScrapeQueueRepository.LeasedTask` | src/homefinder/scrape_queue/repository.py:1130-1182 | returns the task iff worker, lease, clock readings and pointer all match |
| `QueueRepository.ScrapeQueueRepository.Heartbeat` | src/homefinder/scrape_queue/repository.py:910-927 | new tables and reply are those of the transaction; the database stays intact |
| `QueueRepository.ScrapeQueueRepository.Finish` | src/homefinder/scrape_queue/repository.py:984-1029 | retries, the attempt limit, the refund and the closing of the attempt give the tables and the reply of the transaction, as `QueueRules.FailExactly` and `DeferExactly` say |
| `QueueRepository.ScrapeQueueRepository.Complete` | src/homefinder/scrape_queue/repository.py:428-672 | new tables and reply are those of the transaction, for captures, discoveries and retries alike; the database stays intact |
| `QueueRepository.ScrapeQueueRepository.CompleteArtifactReplay` | src/homefinder/scrape_queue/repository.py:820-902 | new tables and reply are those of the transaction, capture and expiry coming from the binding; the database stays intact |
| `BudgetRepository.SourceBudgetRepository.ValidateLease` | src/homefinder/scrape_queue/budget.py:406-452 | returns the attempt of the token iff the lease is admitted |
| `BudgetRepository.SourceBudgetRepository.FirstHealthyRoute` | src/homefinder/scrape_queue/budget.py:102-124 | the least route identifier that is healthy and not quarantined for the source |
| `BudgetRepository.SourceBudgetRepository.ReserveStart` | src/homefinder/scrape_queue/budget.py:58-151 | new tables and reply are those of the transaction, as `BudgetRules.NewStartRoute` and `RefusalIsEarliest` say; the database stays intact |
| `BudgetRepository.SourceBudgetRepository.RecordOutcome` | src/homefinder/scrape_queue/budget.py:153-237 | new tables and reply are those of the transaction, as `BudgetRules.OutcomeOnRoutes` and `OutcomeOnTask` say; the database stays intact |
| `RegistryRepositories.ParserReleaseRepository.Covered` | src/homefinder/parser_releases/__init__.py:219-242 | holds iff healthy workers of both deployments advertise the candidate and the release it replaces |
| `RegistryRepositories.ParserReleaseRepository.Change` | src/homefinder/parser_releases/__init__.py:185-283 | new tables and reply are those of the transaction, accepted as `Epochs.ChangeAcceptedExactly` says; the database stays intact |
| `RegistryRepositories.ParserReleaseRepository.RollbackTarget` | src/homefinder/parser_releases/__init__.py:158-172 | the predecessor in the newest audit that installed the current release over another one |
| `RegistryRepositories.RedirectHandoffRepository.Handoff` | src/homefinder/scrape_queue/redirects.py:24-107 | new tables and reply are those of the transaction: recorded once, and the lease that met it ends |
| `RegistryRepositories.ProductionRetentionRepository.PurgeResult` | src/homefinder/operations/retention.py:228-310 | the result goes, and with the last result of its capture the capture and the bindings that name it |
| `RegistryRepositories.ProductionRetentionRepository.PurgeAll` | src/homefinder/operations/retention.py:100-117 | purging the selected rows one by one is one purge of them all |
| `RegistryRepositories.PurgeMore` | src/homefinder/operations/retention.py:115-117 | purging in two steps equals purging at once, in all three tables |
| `RegistryRepositories.PurgeTables` | src/homefinder/operations/retention.py:228-310 | a purge removes exactly the selected results, the captures only they used and the bindings of those captures |
| `RecoveryRepository.Newest` | src/homefinder/parser_recovery.py:87-114 | each listing keeps its latest row by time and then identifier |
| `RecoveryRepository.NewestIgnoresRowOrder` | src/homefinder/parser_recovery.py:87-114 | that answer does not depend on the order in which the rows come back |
| `RecoveryRepository.ParserRecoveryRepository.PlanArtifactRecovery` | src/homefinder/parser_recovery.py:58-234 | commits as one transaction, equals a run of single replay plans under the active pointer, plans needed candidates on newest captures only, and covers every such content |
| `RecoveryRepository.FaultyAreReplayed` | src/homefinder/parser_recovery.py:116-233 | planning adds replays only for newest captures whose result lacks fields or is of a withdrawn release, and where that holds of all rows of a listing, its newest content is replayed |
| `RecoveryRepository.PlansEveryContentOnce` | src/homefinder/parser_recovery.py:155-233 | when every row is needed, exactly the contents of the newest captures and those that had one have a replay task, one each, whatever the row order |
| `RecoveryRepository.PlanningAgainAddsNothing` | src/homefinder/parser_recovery.py:194-203 | planning again on the same rows adds no task |
| `RecoveryCampaign.NetworkRecovery.ReleaseNetworkBatch` | src/homefinder/parser_recovery.py:236-333 | a batch runs iff it is executed by an actor, without cooldown, under an active release whose campaign is not paused, in its turn; it then releases the oldest held tasks up to its size; otherwise nothing changes |
| `RecoveryCampaign.BatchRunsExactly` | src/homefinder/parser_recovery.py:258-329 | a batch runs iff an actor executes it while the source is not cooling down, under an active release whose campaign is not paused and has this batch next; it then makes the oldest held tasks, up to 50, up to 150 or all, claimable from now on and writes nothing else but the campaign's turn |
| `RecoveryCampaign.CampaignsAreOrderly` | src/homefinder/parser_recovery.py:296-329 | over every sequence of operator calls and other steps, what ever ran for a release is a beginning of 50, 150, remainder, batches keep to their sizes, and no task is released twice |
| `RecoveryCampaign.ClosedForGood` | src/homefinder/parser_recovery.py:297-311 | after a pause or the remainder, no continuation runs another batch for that release |
| `RecoveryCampaign.HeldForGood` | src/homefinder/parser_recovery.py:291-311 | what a portal holds after that stays held in every continuation, for as long as the portal serves that release |
| `ArtifactStore.CrashSafe` | src/homefinder/artifacts/store.py:148-274 | wherever processes stop or overtake each other: each live row has its file, no identifier is live and tombstoned, content is unique among live rows, a variant has at most five samples of different structure, and a row expires thirty days after the oldest capture merged into it |
| `ArtifactStore.RemovedForGood` | src/homefinder/artifacts/store.py:251-274 | a removed artifact never comes back, and no later event moves an expiry further away |
| `ArtifactStore.OrphanFilesStay` | src/homefinder/artifacts/store.py:222-249 | the file of a store that stopped before its commit is kept in every continuation, as neither a row's nor a tombstone's |
| `ArtifactStore.OrphansExactly` | src/homefinder/artifacts/store.py:222-249 | over every run, such files are exactly those of processes that stopped between writing the file and committing the row |
| `ArtifactStore.OneOrphan` | src/homefinder/artifacts/store.py:222-249 | a written file and a stopped process are enough to make one |
| `ArtifactStore.RunSound` | src/homefinder/artifacts/store.py:148-401 | from any sound store every interleaving keeps it sound; tombstones stay and rows leave only by being tombstoned |
| `ArtifactStore.EncryptedArtifactStore.StoreArtifact` | src/homefinder/artifacts/store.py:148-249 | stores iff the capture is neither expired nor from the future; the stored row has the content, a file and an expiry no later than this capture's; a sample is turned away exactly when its variant is full or has its structure; the loop ends however many stores with earlier clock readings overtake it |
| `ArtifactStore.EncryptedArtifactStore.ShredRow` | src/homefinder/artifacts/store.py:251-274 | commits the tombstone before the file goes, with others acting in between |
| `ArtifactStore.EncryptedArtifactStore.Expire` | src/homefinder/artifacts/store.py:388-401 | however it is overtaken, in the end no tombstoned artifact has a file and no row that was expired at its reading is left; without late stores no expired row at all |
| `ArtifactStore.EncryptedArtifactStore.LiveRow` | src/homefinder/artifacts/store.py:303-315 | live iff there is an unexpired row; an expired one is shredded on sight |
| `ArtifactStore.EncryptedArtifactStore.Read` | src/homefinder/artifacts/store.py:276-301 | readable iff there is an unexpired row at the locked instant, and then its file is there and it was never removed |
| `ArtifactStore.EncryptedArtifactStore.Review` | src/homefinder/artifacts/store.py:332-349 | found iff an unexpired row is there at the locked instant; a sample is then removed if confirmed and becomes an ordinary diagnostic otherwise |
| `ArtifactStore.EncryptedArtifactStore.Delete` | src/homefinder/artifacts/store.py:351-368 | found iff tombstoned in the end, and then neither row nor file is left, even after an earlier interrupted deletion |
| `IsoText.TextOrderIsTimeOrder` | src/homefinder/artifacts/store.py:388-394 | for all UTC instants text order of the ISO form, with or without a fraction, is time order (section 5.1 of RFC 3339 assumes equal fraction lengths) |
| `IsoText.BulkQuerySelectsExpired` | src/homefinder/artifacts/store.py:388-394 | the bulk query by text selects exactly the rows whose parsed expiry has come |
| `Nuxt.Hydrate` | src/homefinder/parsers/gratka/parser.py:100-135 | whenever it returns, the result is the plain unfolding of entry 0 and every chain of references from it is in range and acyclic; and it returns whatever the same walk without the cache returns |
| `Nuxt.Hydrator.Reference` | src/homefinder/parsers/gratka/parser.py:106-121 | `resolving` is exactly the search stack, the cache holds finished unfoldings only, and no entry is expanded twice |
| `Nuxt.Hydrator.Literal` | src/homefinder/parsers/gratka/parser.py:123-133 | the same for the children of a literal, with over-long keys rejected |
| `Nuxt.WalkUnfolds` | src/homefinder/parsers/gratka/parser.py:106-133 | what the depth-limited walk returns is the plain unfolding |
| `Nuxt.UnfoldingIsAcyclic` | src/homefinder/parsers/gratka/parser.py:106-121 | if entry 0 unfolds, no chain of references from it leaves the table or meets an entry twice |
| `Benchmark.BuildManifest` | src/homefinder/benchmark/__init__.py:69-95 | the loops deal the sorted strata round by round until the limit, and terminate without the guard against a round without progress |
| `Benchmark.SelectionIsFair` | src/homefinder/benchmark/__init__.py:84-95 | exactly min(1000, unique items) are selected; there is a level that every stratum reaches unless exhausted, only the alphabetically first going one beyond; each contributes a prefix of its sorted order |
| `Benchmark.EarlierIsSelected` | src/homefinder/benchmark/__init__.py:76-95 | within a stratum nothing is passed over: what comes before a selected candidate by structure, then newest first, then artifact id, is selected too |
| `Benchmark.SelectionIsASample` | src/homefinder/benchmark/__init__.py:69-95 | nothing is selected twice or without having been offered |
| `Benchmark.SelectionIgnoresInputOrder` | src/homefinder/benchmark/__init__.py:69-95 | the selection depends on the set of items alone while no two different ones have the same artifact and content or tie within a stratum; distinct artifact ids are enough (`Benchmark.DistinctIdsSuffice`) |
| `Benchmark.OrderFreeExactly` | src/homefinder/benchmark/__init__.py:76-83 | when nothing is cut off, every order of the items gives the same selection iff there is no such pair |
| `Benchmark.SharedIdsKeepInputOrder` | src/homefinder/benchmark/__init__.py:76-83 | with two contents under one id it does |
| `Capacity.Schedule` | src/homefinder/scrape_queue/capacity.py:76-91 | always taking the worker that is free first meets start_i = max(arrival_i, start_{i-1} + interval, start_{i-2} + response) |
| `Capacity.GreedyIsEarliest` | src/homefinder/scrape_queue/capacity.py:76-91 | that schedule never has three tasks in service, and every in-order schedule under the same constraints starts each task no earlier |
| `Capacity.StartsAreMonotone` | src/homefinder/scrape_queue/capacity.py:76-91 | later arrivals, a longer interval or a slower response never start a task earlier |
| `Capacity.BurstStarts` | src/homefinder/scrape_queue/capacity.py:55-60 | in a burst, task i starts at the larger of i intervals and half as many responses, rounded down |
| `Capacity.SimulateCapacity` | src/homefinder/scrape_queue/capacity.py:26-73 | the objective is available iff both limits admit 1000 a day and max(42 interval, 21 response) + response <= 600 |
| `Paging.ConditionsCutTheOrder` | src/homefinder/web/scraper_errors.py:270-291 | the three-part and the two-part key conditions are the lexicographic order of the rows |
| `Paging.LoadPage` | src/homefinder/scrape_queue/repository.py:1065-1128 | the newest rows before the cursor in strictly descending order, and a next cursor iff older rows remain |
| `Paging.CursorsEnumerate` | src/homefinder/scrape_queue/repository.py:1065-1128 | following the cursors to the end lists every row of the first table exactly once, newest first, while newer rows are inserted between pages |
| `Paging.CursorsRunOut` | src/homefinder/web/scraper_errors.py:69-134 | every page but the last is full, so the pages end |
| `Paging.StreamSkipsNothing` | src/homefinder/web/scraper_errors.py:246-267 | the stream repeats nothing, and a row that was there before the cursor passed it has been emitted |
| `SizeAlerts.DatabaseSizeAlerts.RecordDatabaseSize` | src/homefinder/operations/retention.py:341-399 | each boundary's new state and the alerts of one measurement; a negative size is rejected |
| `SizeAlerts.Replay` | src/homefinder/operations/retention.py:341-399 | over any sequence of measurements a boundary alerts iff the size is at or above it and it was never reached before or has been rearmed by seven consecutive numeric measurements below it |
| `SizeAlerts.AlertsExactly` | src/homefinder/operations/retention.py:358-390 | the same for one measurement after any history |
| `SizeAlerts.KnownBoundariesArePrefix` | src/homefinder/operations/retention.py:358-390 | the known boundaries are always the multiples of 10 GB up to some highest one |

## Left out

- SQL, sessions and row locks: a transaction is one atomic step; which rows other transactions have locked is a parameter, and the branches for `IntegrityError` races are not reached.
- Fresh identifiers and hashes: UUIDs are identifiers not used before, SHA-256 idempotency keys are the tuples that are hashed, ciphertext and keys are not represented.
- Catalog lookups and URL validation in `enqueue`, `handoff` and `release_discovery_canary`: their verdict is a parameter; the canary's audit row is not part of this model.
- `RecoveryRepository.PlansEveryContentOnce`: assumes that every candidate row is needed. In the code every candidate has a diagnostic, and those are written for results with missing fields only (src/homefinder/scrape_queue/repository.py:616-631, 880-893); diagnostics are not part of this model.
- Contents of parser results: an outcome is a value with equality, its field and size checks are one flag, and candidate, field and diagnostic rows are not stored.
- `record_proxy_bytes` and `record_success`: the worker API does not use them.
- `supersede_legacy_backlog`: it adds held tasks under a key of its own, like `enqueue` does.
- `eligible_for_activation` and the benchmark worker: the verdict on a candidate is a parameter of the pointer change.
- `Completion.RetryIsAcknowledged`: assumes that the later clock is not before the capture's fetch time, which the code checks before it looks for the accepted result.
- `DailyCaps.DailyAttemptsCapped`: assumes that the source's own clock readings do not go back, and so does the tally of the day's successes; the spacing and success bounds do not.
- `ProxyLedger.ProxyBytesConserved`: assumes that no other caller refunds an attempt with a reservation or reports an outcome in another billing cycle; `ProxyLedger.ConservesExactly` says what happens otherwise.
- `ArtifactStore.EncryptedArtifactStore.StoreArtifact`: any number of stores with earlier clock readings may overtake it, but that number is fixed in advance; sample stores use one reading for expiring and storing.
- `Capacity.SimulateCapacity`: times are reals, so rounding of floats is not represented.
- `Benchmark.BuildManifest`: strata, signatures and identifiers are numbers in the order of their texts; fixtures and the manifest's hash are not part of this model.
- `Paging.LoadPage`: the JSON and base64 form of the cursor, and the columns that are no part of the key.
- `Nuxt.Hydrate`: shared subtrees of the result are equal values, not one object; JSON keys are always texts.
- `complete` reads its clock twice for the attempt and the task; both stamps are one reading here. `updated_at` columns, actors and audit details are not stored.
- Billing cycles in the ledger statements are an arbitrary function of time; `Calendar` has the actual one.
- Batch size, order and backlog counts of the retention job, and the purge of benchmark results.
- Worker threads: the heartbeat is a reading that may say the lease is lost; sleeping, signals and HTTP are not represented.
- `_nested_dicts` and the rest of the page parsers, HTML and report rendering, mail and spreadsheet adapters, scoring, workflow jobs and routing quotas: separate components with no part in these properties.
