/** A concrete run across midnight UTC in which two permits are granted and only one success is accepted. */
module MidnightWitness {
  import opened Options
  import opened Contracts
  import opened ScrapeQueue
  import opened SourceBudget
  import opened DenialPolicy
  import opened Coordinator
  import opened Fencing
  import opened Changes
  import opened LeaseLife
  import Calendar

  ghost const CFG := Config(Timing(60, 20, 600, 90, 1), map[Gratka := Limits(1_000_000, 10, 10)], (t: Time) => 0)

  const MIDNIGHT := Calendar.DAY
  const BEFORE := MIDNIGHT - 2_000_000
  const FIRST_START := MIDNIGHT - 1_000_000
  const SECOND_START := MIDNIGHT + 30_000_000
  const FIRST_SUCCESS := MIDNIGHT + 40_000_000
  const SECOND_SUCCESS := MIDNIGHT + 50_000_000
  const EXPIRY := BEFORE + 60_000_000

  const WORKER := WorkerIdentity("w", Gratka, Nas)

  function KeyOf(id: TaskId): IdempotencyKey { PinnedKey(Gratka, id, "u", DiscoveryCapture, "r", 1) }

  function Waiting(id: TaskId): Task {
    Task(Gratka, id, "u", DiscoveryCapture, "r", 1, KeyOf(id), Pending, 30, BEFORE, BEFORE, 0, None, None, None, None, None, false, None)
  }

  function Leased(id: TaskId): Task {
    Waiting(id).(state := Running, attemptCount := 1, leaseOwner := Some("w"), leaseToken := Some(100 + id),
                 leaseStartedAt := Some(BEFORE), leaseExpiresAt := Some(EXPIRY))
  }

  function LeaseFor(id: TaskId): ScrapeLease {
    ScrapeLease(id, Gratka, id, "u", DiscoveryCapture, "r", 1, 100 + id, EXPIRY, 1)
  }

  function Fresh(id: TaskId): Attempt {
    Attempt(100 + id, "w", "r", 1, BEFORE, None, None, None, Unassigned, None, 0, None, None, 0)
  }

  function Direct(id: TaskId, at: Time): Attempt {
    Fresh(id).(route := Route.Direct, networkStartedAt := Some(at))
  }

  function PermitAt(at: Time): NetworkPermit { NetworkPermit(true, at, Route.Direct, None) }

  const ONE := AttemptKey(1, 1)
  const TWO := AttemptKey(2, 1)

  const STEPS: seq<Step> := [
    RegisterReleaseStep("r", Gratka, "p"),
    RegisterWorkerStep(WORKER, {"r"}, true, BEFORE),
    EnqueueStep(1, Gratka, 1, Some("u"), DiscoveryCapture, Some("r"), BEFORE),
    EnqueueStep(2, Gratka, 2, Some("u"), DiscoveryCapture, Some("r"), BEFORE),
    ClaimStep(WORKER, {DiscoveryCapture}, {}, Some(1), 101, BEFORE, BEFORE),
    ClaimStep(WORKER, {DiscoveryCapture}, {}, Some(2), 102, BEFORE, BEFORE),
    ReserveStep(WORKER, LeaseFor(1), 0, FIRST_START),
    ReserveStep(WORKER, LeaseFor(2), 0, SECOND_START),
    OutcomeStep(WORKER, LeaseFor(1), PermitAt(FIRST_START), Success, 10, None, FIRST_SUCCESS)]

  // ----- the database after each step

  const REGISTERED := EMPTY.(releases := map["r" := Release(Gratka, "p", Draft)], workers := map["w" := Worker(Gratka, Nas, BEFORE, {"r"}, true)])
  const QUEUED := REGISTERED.(tasks := map[1 := Waiting(1)])
  const BOTH_QUEUED := REGISTERED.(tasks := map[1 := Waiting(1), 2 := Waiting(2)])
  const CLAIMED := REGISTERED.(tasks := map[1 := Leased(1), 2 := Waiting(2)], attempts := map[ONE := Fresh(1)], issued := {101},
                               log := [Claimed(1, 101)])
  const BOTH_CLAIMED := REGISTERED.(tasks := map[1 := Leased(1), 2 := Leased(2)], attempts := map[ONE := Fresh(1), TWO := Fresh(2)],
                                    issued := {101, 102}, log := [Claimed(1, 101), Claimed(2, 102)])
  const STARTED := BOTH_CLAIMED.(
    attempts := map[ONE := Direct(1, FIRST_START), TWO := Fresh(2)],
    sources := map[Gratka := SourceState(0, 1, 0, Some(FIRST_START + 1_000_000), None, 0)],
    log := BOTH_CLAIMED.log + [Started(Gratka, 1, Route.Direct, FIRST_START)])
  const BOTH_STARTED := BOTH_CLAIMED.(
    attempts := map[ONE := Direct(1, FIRST_START), TWO := Direct(2, SECOND_START)],
    sources := map[Gratka := SourceState(1, 1, 0, Some(SECOND_START + 1_000_000), None, 0)],
    log := STARTED.log + [Started(Gratka, 2, Route.Direct, SECOND_START)])
  const COUNTED := BOTH_STARTED.(
    attempts := map[ONE := Direct(1, FIRST_START).(classification := Some(Success), responseBytes := 10), TWO := Direct(2, SECOND_START)],
    sources := map[Gratka := SourceState(1, 1, 1, Some(SECOND_START + 1_000_000), None, 0)],
    log := BOTH_STARTED.log + [Observed(Gratka, 1, Route.Direct, Success, FIRST_SUCCESS, None, None)])

  lemma Registers()
    ensures Apply(CFG, Apply(CFG, EMPTY, STEPS[0]), STEPS[1]) == REGISTERED
  {
    hide ApplyLease, ApplyQueue, RegisterProxyRoute, TouchSource, Purge, PurgeRow;
  }

  lemma KeysAreNew()
    ensures forall other :: !HasKey(REGISTERED, KeyOf(1), other)
    ensures forall other :: !HasKey(QUEUED, KeyOf(2), other)
  {
  }

  lemma QueuedRows()
    ensures AddTask(REGISTERED, 1, Waiting(1)) == QUEUED
    ensures AddTask(QUEUED, 2, Waiting(2)) == BOTH_QUEUED
  {
  }

  lemma FirstEnqueued()
    ensures Enqueue(REGISTERED, 1, Gratka, 1, Some("u"), DiscoveryCapture, Some("r"), BEFORE).0 == QUEUED
  {
    hide HasKey, AddTask;
    KeysAreNew();
    QueuedRows();
  }

  lemma SecondEnqueued()
    ensures Enqueue(QUEUED, 2, Gratka, 2, Some("u"), DiscoveryCapture, Some("r"), BEFORE).0 == BOTH_QUEUED
  {
    hide HasKey, AddTask;
    KeysAreNew();
    QueuedRows();
  }

  lemma FirstQueued()
    ensures Apply(CFG, REGISTERED, STEPS[2]) == QUEUED
  {
    hide ApplyLease, ApplyOutside, Enqueue, PlanReplay, ReleaseHeld, Reap, ReapRows, Claim, ClaimRow;
    FirstEnqueued();
  }

  lemma SecondQueued()
    ensures Apply(CFG, QUEUED, STEPS[3]) == BOTH_QUEUED
  {
    hide ApplyLease, ApplyOutside, Enqueue, PlanReplay, ReleaseHeld, Reap, ReapRows, Claim, ClaimRow;
    SecondEnqueued();
  }

  lemma PicksFirst()
    ensures ClaimRow(CFG, BOTH_QUEUED, WORKER, {DiscoveryCapture}, {}, BEFORE, Some(1))
  {
  }

  lemma PicksSecond()
    ensures ClaimRow(CFG, CLAIMED, WORKER, {DiscoveryCapture}, {}, BEFORE, Some(2))
  {
  }

  lemma FirstTables()
    ensures 1 in BOTH_QUEUED.tasks && TakeLease(CFG, BOTH_QUEUED, WORKER, 1, Pointer("r", 1), 101, BEFORE) == CLAIMED
  {
  }

  lemma SecondTables()
    ensures 2 in CLAIMED.tasks && TakeLease(CFG, CLAIMED, WORKER, 2, Pointer("r", 1), 102, BEFORE) == BOTH_CLAIMED
  {
  }

  lemma TakesFirst()
    ensures Claim(CFG, BOTH_QUEUED, WORKER, Some(1), 101, BEFORE, BEFORE).0 == CLAIMED
  {
    hide TakeLease, LeaseOf, ClaimedTask;
    FirstTables();
  }

  lemma TakesSecond()
    ensures Claim(CFG, CLAIMED, WORKER, Some(2), 102, BEFORE, BEFORE).0 == BOTH_CLAIMED
  {
    hide TakeLease, LeaseOf, ClaimedTask;
    SecondTables();
  }

  lemma FirstClaim()
    ensures Apply(CFG, BOTH_QUEUED, STEPS[4]) == CLAIMED
  {
    hide ApplyLease, ApplyOutside, Claim, ClaimRow, Reap, ReapRows, ReleaseHeld, Enqueue, PlanReplay;
    PicksFirst();
    TakesFirst();
  }

  lemma SecondClaim()
    ensures Apply(CFG, CLAIMED, STEPS[5]) == BOTH_CLAIMED
  {
    hide ApplyLease, ApplyOutside, Claim, ClaimRow, Reap, ReapRows, ReleaseHeld, Enqueue, PlanReplay;
    PicksSecond();
    TakesSecond();
  }

  lemma RunClaims()
    ensures Run(CFG, EMPTY, STEPS[..6]) == BOTH_CLAIMED
  {
    hide Apply, Run, REGISTERED, QUEUED, BOTH_QUEUED, CLAIMED, BOTH_CLAIMED;
    RunNone(CFG, EMPTY, STEPS);
    Registers();
    FirstQueued();
    SecondQueued();
    FirstClaim();
    SecondClaim();
    RunNext(CFG, EMPTY, STEPS, 0);
    RunNext(CFG, EMPTY, STEPS, 1);
    RunNext(CFG, EMPTY, STEPS, 2);
    RunNext(CFG, EMPTY, STEPS, 3);
    RunNext(CFG, EMPTY, STEPS, 4);
    RunNext(CFG, EMPTY, STEPS, 5);
  }

  // ----- the starts

  /** The database has the two leases, each under its own token. */
  predicate BothLeased(db: Db) {
    db.tasks == map[1 := Leased(1), 2 := Leased(2)] && db.attempts.Keys == {ONE, TWO}
    && db.attempts[ONE].token == 101 && db.attempts[TWO].token == 102 && db.workers == REGISTERED.workers
  }

  lemma LeaseAdmitted(db: Db, id: TaskId, now: Time)
    requires BothLeased(db) && id in {1, 2} && now < EXPIRY
    ensures Admitted(db, WORKER, LeaseFor(id), now) && AttemptOf(db, 100 + id) == Some(AttemptKey(id, 1))
  {
    var token, key := 100 + id, AttemptKey(id, 1);
    assert HasToken(db, token, key);
    assert forall k :: HasToken(db, token, k) ==> k == key;
  }

  lemma FirstCharged()
    ensures CFG.budgets == map[Gratka := Limits(1_000_000, 10, 10)] && ONE in BOTH_CLAIMED.attempts && 1 in BOTH_CLAIMED.tasks
    ensures BOTH_CLAIMED.sources[Gratka := ChargedSource(SourceStateAt(BOTH_CLAIMED, Gratka, FIRST_START), CFG.budgets[Gratka], FIRST_START)]
            == STARTED.sources
    ensures BOTH_CLAIMED.attempts[ONE := StartedAttempt(BOTH_CLAIMED.attempts[ONE], None, 0, FIRST_START)] == STARTED.attempts
  {
  }

  lemma GrantFirst()
    ensures Grant(CFG, BOTH_CLAIMED, Gratka, 1, ONE, 0, FIRST_START) == (STARTED, None)
  {
    hide FirstRoute, SourceStateAt, ChargedSource, StartedAttempt;
    FirstCharged();
    assert Grant(CFG, BOTH_CLAIMED, Gratka, 1, ONE, 0, FIRST_START).0.tasks == STARTED.tasks;
  }

  lemma FirstMayStart()
    ensures MayStart(CFG.budgets[Gratka], SourceStateAt(BOTH_CLAIMED, Gratka, FIRST_START), Leased(1), FIRST_START)
  {
  }

  lemma Starts()
    ensures Apply(CFG, BOTH_CLAIMED, STEPS[6]) == STARTED
  {
    hide ApplyOutside, ApplyQueue, ReserveStart, Grant, MayStart, SourceStateAt, BothLeased;
    NotStartedYet();
    FirstMayStart();
    Reserves(BOTH_CLAIMED, 1, FIRST_START);
    GrantFirst();
  }

  /** A reservation that is granted. */
  lemma Reserves(db: Db, id: TaskId, now: Time)
    requires BothLeased(db) && id in {1, 2} && now < EXPIRY && db.attempts[AttemptKey(id, 1)].route.Unassigned?
    requires MayStart(CFG.budgets[Gratka], SourceStateAt(db, Gratka, now), Leased(id), now)
    ensures ReserveStart(CFG, db, WORKER, LeaseFor(id), 0, now).0 == Grant(CFG, db, Gratka, id, AttemptKey(id, 1), 0, now).0
  {
    hide Admitted, AttemptOf, Grant, MayStart, SourceStateAt, Refusal;
    LeaseAdmitted(db, id, now);
  }

  lemma NotStartedYet()
    ensures BothLeased(BOTH_CLAIMED) && BOTH_CLAIMED.attempts[ONE].route.Unassigned?
    ensures BothLeased(STARTED) && STARTED.attempts[TWO].route.Unassigned?
  {
  }

  /** The second start rolls the day over. */
  lemma SecondCharged()
    ensures CFG.budgets == map[Gratka := Limits(1_000_000, 10, 10)] && TWO in STARTED.attempts && 2 in STARTED.tasks
    ensures STARTED.sources[Gratka := ChargedSource(SourceStateAt(STARTED, Gratka, SECOND_START), CFG.budgets[Gratka], SECOND_START)]
            == BOTH_STARTED.sources
    ensures STARTED.attempts[TWO := StartedAttempt(STARTED.attempts[TWO], None, 0, SECOND_START)] == BOTH_STARTED.attempts
  {
  }

  lemma GrantSecond()
    ensures Grant(CFG, STARTED, Gratka, 2, TWO, 0, SECOND_START) == (BOTH_STARTED, None)
  {
    hide FirstRoute, SourceStateAt, ChargedSource, StartedAttempt;
    SecondCharged();
    assert Grant(CFG, STARTED, Gratka, 2, TWO, 0, SECOND_START).0.tasks == BOTH_STARTED.tasks;
  }

  lemma SecondMayStart()
    ensures MayStart(CFG.budgets[Gratka], SourceStateAt(STARTED, Gratka, SECOND_START), Leased(2), SECOND_START)
  {
  }

  lemma StartsBoth()
    ensures Apply(CFG, STARTED, STEPS[7]) == BOTH_STARTED
  {
    hide ApplyOutside, ApplyQueue, ReserveStart, Grant, MayStart, SourceStateAt, BothLeased;
    NotStartedYet();
    SecondMayStart();
    Reserves(STARTED, 2, SECOND_START);
    GrantSecond();
  }

  const PLAIN := RouteDecision(None, None, false, false, 0)

  lemma FirstSource()
    ensures BOTH_STARTED.sources[Gratka := ObservedSource(SourceStateAt(BOTH_STARTED, Gratka, FIRST_SUCCESS), Route.Direct, Success, PLAIN,
                                                          FIRST_SUCCESS)] == COUNTED.sources
  {
  }

  lemma FirstAttempt()
    ensures ONE in BOTH_STARTED.attempts && 1 in BOTH_STARTED.tasks
    ensures BOTH_STARTED.attempts[ONE := ObservedAttempt(BOTH_STARTED.attempts[ONE], Success, 10, PLAIN, FIRST_SUCCESS)] == COUNTED.attempts
  {
  }

  lemma ObserveFirst()
    ensures Observe(CFG, BOTH_STARTED, Gratka, 1, ONE, PermitAt(FIRST_START), Success, 10, PLAIN, FIRST_SUCCESS) == COUNTED
  {
    hide BOTH_STARTED, Quarantined, FallbackTask, ObservedSource, ObservedAttempt, SourceStateAt, LedgerAt, Reconciled;
    FirstSource();
    FirstAttempt();
  }

  lemma SuccessDecided()
    ensures var s := SourceStateAt(BOTH_STARTED, Gratka, FIRST_SUCCESS);
            Decide(Route.Direct, Success, FIRST_SUCCESS, s.directDenialCount, None) == PLAIN && !Uncharged(s, Success)
  {
  }

  /** The first success is counted on the day of the second start. */
  lemma Counts()
    ensures RecordOutcome(CFG, BOTH_STARTED, WORKER, LeaseFor(1), PermitAt(FIRST_START), Success, 10, None, FIRST_SUCCESS).0 == COUNTED
  {
    hide Admitted, AttemptOf, Decide, Observe, SourceStateAt, Uncharged;
    LeaseAdmitted(BOTH_STARTED, 1, FIRST_SUCCESS);
    SuccessDecided();
    ObserveFirst();
  }

  lemma CountStep(db: Db)
    ensures Apply(CFG, db, STEPS[8])
            == RecordOutcome(CFG, db, WORKER, LeaseFor(1), PermitAt(FIRST_START), Success, 10, None, FIRST_SUCCESS).0
  {
    hide ApplyOutside, ApplyQueue, RecordOutcome;
  }

  lemma RunCounts()
    ensures Run(CFG, EMPTY, STEPS[..7]) == STARTED && Run(CFG, EMPTY, STEPS) == COUNTED
  {
    hide Apply, Run, RecordOutcome, BOTH_CLAIMED, STARTED, BOTH_STARTED, COUNTED;
    RunClaims();
    Starts();
    StartsBoth();
    Counts();
    CountStep(BOTH_STARTED);
    RunNext(CFG, EMPTY, STEPS, 6);
    RunNext(CFG, EMPTY, STEPS, 7);
    RunNext(CFG, EMPTY, STEPS, 8);
    assert STEPS[..9] == STEPS;
  }

  lemma SuccessAllowed(db: Db, id: TaskId, at: Time, now: Time)
    requires BothLeased(db) && id in {1, 2} && now < EXPIRY && db.attempts[AttemptKey(id, 1)] == Direct(id, at)
    ensures OutcomeAllowed(CFG, db, WORKER, LeaseFor(id), PermitAt(at), 10, None, now)
  {
    hide Admitted;
    LeaseAdmitted(db, id, now);
    assert Newest(db, id) == AttemptKey(id, 1);
  }

  lemma Rejected(db: Db, id: TaskId, at: Time, now: Time)
    requires Fenced(db) && SourceStateAt(db, Gratka, now).successCount >= SourceStateAt(db, Gratka, now).attemptCount
    ensures !RecordOutcome(CFG, db, WORKER, LeaseFor(id), PermitAt(at), Success, 10, None, now).1.Ok?
  {
    hide Fenced, RecordOutcome, OutcomeAllowed, SourceStateAt;
    OutcomeAcceptedExactly(CFG, db, WORKER, LeaseFor(id), PermitAt(at), Success, 10, None, now);
  }

  lemma LeasesStand()
    ensures BothLeased(STARTED) && STARTED.attempts[ONE] == Direct(1, FIRST_START)
    ensures BothLeased(COUNTED) && COUNTED.attempts[TWO] == Direct(2, SECOND_START)
  {
  }

  lemma CountersAreFull()
    ensures SourceStateAt(STARTED, Gratka, FIRST_SUCCESS) == SourceState(1, 0, 0, Some(FIRST_START + 1_000_000), None, 0)
    ensures SourceStateAt(COUNTED, Gratka, SECOND_SUCCESS) == SourceState(1, 1, 1, Some(SECOND_START + 1_000_000), None, 0)
  {
  }

  /** Two rejected successes that pass every other guard.  One is the first transaction of the new day.  The other
      comes later that day, under a start of that day, after a success whose start was the day before. */
  lemma SuccessesRejected()
    ensures var db := Run(CFG, EMPTY, STEPS[..7]);
            OutcomeAllowed(CFG, db, WORKER, LeaseFor(1), PermitAt(FIRST_START), 10, None, FIRST_SUCCESS)
            && !RecordOutcome(CFG, db, WORKER, LeaseFor(1), PermitAt(FIRST_START), Success, 10, None, FIRST_SUCCESS).1.Ok?
    ensures var db := Run(CFG, EMPTY, STEPS);
            SourceStateAt(db, Gratka, SECOND_SUCCESS).attemptCount == 1
            && OutcomeAllowed(CFG, db, WORKER, LeaseFor(2), PermitAt(SECOND_START), 10, None, SECOND_SUCCESS)
            && !RecordOutcome(CFG, db, WORKER, LeaseFor(2), PermitAt(SECOND_START), Success, 10, None, SECOND_SUCCESS).1.Ok?
  {
    hide Apply, Run, RecordOutcome, OutcomeAllowed, Fenced, SourceStateAt, BothLeased, BOTH_CLAIMED, STARTED, BOTH_STARTED, COUNTED;
    LeasesStand();
    RunCounts();
    ReachableFenced(CFG, STEPS[..7]);
    ReachableFenced(CFG, STEPS);
    CountersAreFull();
    SuccessAllowed(STARTED, 1, FIRST_START, FIRST_SUCCESS);
    SuccessAllowed(COUNTED, 2, SECOND_START, SECOND_SUCCESS);
    Rejected(STARTED, 1, FIRST_START, FIRST_SUCCESS);
    Rejected(COUNTED, 2, SECOND_START, SECOND_SUCCESS);
  }
}
