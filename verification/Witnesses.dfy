/** A concrete run in which the direct fallback strands a task and a reservation crosses a billing cycle. */
module Witnesses {
  import opened Options
  import opened Contracts
  import opened ScrapeQueue
  import opened SourceBudget
  import opened DenialPolicy
  import opened Coordinator
  import opened Bounds
  import opened ProxyLedger

  /** One attempt per task, and a billing cycle that ends right after time zero. */
  ghost const CFG := Config(Timing(60, 20, 600, 90, 1), map[Gratka := Limits(1_000_000, 10, 10)], (t: Time) => if t < 1 then 0 else 1)

  const WORKER := WorkerIdentity("w", Gratka, Nas)
  const KEY := PinnedKey(Gratka, 7, "u", DiscoveryCapture, "r", 1)
  const NEW := Task(Gratka, 7, "u", DiscoveryCapture, "r", 1, KEY, Pending, 30, 0, 0, 0, None, None, None, None, None, false, None)
  const LEASED := NEW.(state := Running, attemptCount := 1, leaseOwner := Some("w"), leaseToken := Some(100),
                       leaseStartedAt := Some(0), leaseExpiresAt := Some(60_000_000))
  const LEASE := ScrapeLease(1, Gratka, 7, "u", DiscoveryCapture, "r", 1, 100, 60_000_000, 1)
  const ATTEMPT := Attempt(100, "w", "r", 1, 0, None, None, None, Unassigned, None, 0, None, None, 0)
  const PERMIT := NetworkPermit(true, 0, Proxy, Some(5))
  const FIRST := AttemptKey(1, 1)

  // ----- the database after each step

  const REGISTERED := EMPTY.(releases := map["r" := Release(Gratka, "p", Draft)],
                             workers := map["w" := Worker(Gratka, Nas, 0, {"r"}, true)], routes := map[5 := true])
  const QUEUED := REGISTERED.(tasks := map[1 := NEW])
  const CLAIMED := QUEUED.(tasks := map[1 := LEASED], attempts := map[FIRST := ATTEMPT], issued := {100}, log := [Claimed(1, 100)])
  const STARTED := CLAIMED.(
    attempts := map[FIRST := ATTEMPT.(route := Proxy, routeId := Some(5), proxyReservedBytes := 2_000_000, networkStartedAt := Some(0))],
    sources := map[Gratka := SourceState(0, 1, 0, Some(1_000_000), None, 0)],
    ledgers := map[0 := Ledger(2_000_000, 0)],
    log := [Claimed(1, 100), Started(Gratka, 1, Proxy, 0)])

  const STEPS: seq<Step> := [
    RegisterReleaseStep("r", Gratka, "p"),
    RegisterWorkerStep(WORKER, {"r"}, true, 0),
    ProxyRouteStep(5),
    EnqueueStep(1, Gratka, 7, Some("u"), DiscoveryCapture, Some("r"), 0),
    ClaimStep(WORKER, {DiscoveryCapture}, {}, Some(1), 100, 0, 0),
    ReserveStep(WORKER, LEASE, 2_000_000, 0)]

  /** The proxy denial that the last step reports. */
  const DENIAL := OutcomeStep(WORKER, LEASE, PERMIT, PortalDenial, 10, None, 1)

  lemma Registers()
    ensures Apply(CFG, Apply(CFG, Apply(CFG, EMPTY, STEPS[0]), STEPS[1]), STEPS[2]) == REGISTERED
  {
    hide ApplyLease, ApplyQueue, TouchSource, Purge, PurgeRow;
  }

  lemma NewTaskQueued()
    ensures Enqueue(REGISTERED, 1, Gratka, 7, Some("u"), DiscoveryCapture, Some("r"), 0).0 == QUEUED
  {
    assert forall other :: !HasKey(REGISTERED, KEY, other);
  }

  lemma Queues()
    ensures Apply(CFG, REGISTERED, STEPS[3]) == QUEUED
  {
    hide ApplyLease, ApplyOutside, Enqueue;
    NewTaskQueued();
  }

  lemma PicksOnly()
    ensures ClaimRow(CFG, QUEUED, WORKER, {DiscoveryCapture}, {}, 0, Some(1))
  {
  }

  lemma TakesOnly()
    ensures Claim(CFG, QUEUED, WORKER, Some(1), 100, 0, 0).0 == CLAIMED
  {
    hide LeaseOf;
  }

  lemma Claims1()
    ensures Apply(CFG, QUEUED, STEPS[4]) == CLAIMED
  {
    hide ApplyLease, ApplyOutside, Claim, ClaimRow;
    PicksOnly();
    TakesOnly();
  }

  lemma HoldsToken(db: Db)
    requires db.attempts.Keys == {FIRST} && db.attempts[FIRST].token == 100
    ensures AttemptOf(db, 100) == Some(FIRST)
  {
    assert HasToken(db, 100, FIRST);
    assert forall k :: HasToken(db, 100, k) ==> k == FIRST;
  }

  lemma LeaseAdmitted(now: Time)
    requires 0 <= now <= 1
    ensures Admitted(CLAIMED, WORKER, LEASE, now) && Admitted(STARTED, WORKER, LEASE, now)
  {
    HoldsToken(CLAIMED);
    HoldsToken(STARTED);
  }

  lemma OnlyRoute()
    ensures FirstRoute(CLAIMED, Gratka, 0) == Some(5)
  {
    assert RouteUsable(CLAIMED, Gratka, 0, 5);
    assert forall q :: RouteUsable(CLAIMED, Gratka, 0, q) ==> q == 5;
  }

  lemma StartedRows()
    ensures CFG.budgets == map[Gratka := Limits(1_000_000, 10, 10)] && FIRST in CLAIMED.attempts && 1 in CLAIMED.tasks
    ensures CLAIMED.sources[Gratka := ChargedSource(SourceStateAt(CLAIMED, Gratka, 0), CFG.budgets[Gratka], 0)] == STARTED.sources
    ensures CLAIMED.attempts[FIRST := StartedAttempt(CLAIMED.attempts[FIRST], Some(5), 2_000_000, 0)] == STARTED.attempts
  {
  }

  lemma GrantStarted()
    ensures Grant(CFG, CLAIMED, Gratka, 1, FIRST, 2_000_000, 0) == (STARTED, Some(5))
  {
    hide FirstRoute, SourceStateAt, ChargedSource, StartedAttempt;
    OnlyRoute();
    StartedRows();
    var db := Grant(CFG, CLAIMED, Gratka, 1, FIRST, 2_000_000, 0).0;
    assert db.tasks == STARTED.tasks;
    assert db.ledgers == STARTED.ledgers;
    assert db.log == STARTED.log;
  }

  lemma MayStartNow()
    ensures MayStart(CFG.budgets[Gratka], SourceStateAt(CLAIMED, Gratka, 0), LEASED, 0)
  {
  }

  lemma Starts()
    ensures Apply(CFG, CLAIMED, STEPS[5]) == STARTED
  {
    hide ApplyOutside, ApplyQueue, Admitted, AttemptOf, Grant, MayStart, SourceStateAt, Refusal;
    HoldsToken(CLAIMED);
    LeaseAdmitted(0);
    MayStartNow();
    GrantStarted();
  }

  lemma RunStarts()
    ensures Run(CFG, EMPTY, STEPS) == STARTED
  {
    hide Apply, Run, REGISTERED, QUEUED, CLAIMED, STARTED;
    RunNone(CFG, EMPTY, STEPS);
    Registers();
    Queues();
    Claims1();
    Starts();
    RunNext(CFG, EMPTY, STEPS, 0);
    RunNext(CFG, EMPTY, STEPS, 1);
    RunNext(CFG, EMPTY, STEPS, 2);
    RunNext(CFG, EMPTY, STEPS, 3);
    RunNext(CFG, EMPTY, STEPS, 4);
    RunNext(CFG, EMPTY, STEPS, 5);
    assert STEPS[..6] == STEPS;
  }

  const RETRY := RouteDecision(Some(900_000_001), None, false, true, 0)

  lemma DenialIsDecided()
    ensures var s := SourceStateAt(STARTED, Gratka, 1);
            Decide(Proxy, PortalDenial, 1, s.directDenialCount, None) == RETRY && !Uncharged(s, PortalDenial)
    ensures !Overruns(CFG, STARTED, FIRST, PERMIT, 10, 1)
  {
  }

  lemma DenialIsAccepted()
    ensures Apply(CFG, STARTED, DENIAL) == Observe(CFG, STARTED, Gratka, 1, FIRST, PERMIT, PortalDenial, 10, RETRY, 1)
  {
    hide ApplyOutside, ApplyQueue, Admitted, AttemptOf, Observe, SourceStateAt, Decide, Overruns, Uncharged;
    HoldsToken(STARTED);
    LeaseAdmitted(1);
    DenialIsDecided();
  }

  /** What the denial leaves: the only attempt is used up, the task waits for a retry that no claim may make,
      and the two cycles' books no longer balance. */
  lemma Denied()
    ensures var db := Apply(CFG, STARTED, DENIAL);
            1 in db.tasks && db.tasks[1].state.Deferred? && db.tasks[1].attemptCount == 1
            && LedgerAt(db, 0) == Ledger(2_000_000, 0) && LedgerAt(db, 1) == Ledger(-1_999_990, 10)
            && db.attempts.Keys == {FIRST} && db.attempts[FIRST].proxyReservedBytes == 0
  {
    hide Apply, SourceStateAt, ObservedSource, Quarantined;
    DenialIsAccepted();
  }

  /** The fallback strands a task: a reachable database, one more outcome, and the task can never be claimed. */
  lemma FallbackStrands()
    ensures !StrandedIn(CFG, Run(CFG, EMPTY, STEPS), 1)
    ensures StrandedIn(CFG, Run(CFG, EMPTY, STEPS + [DENIAL]), 1)
  {
    hide Apply;
    RunStarts();
    Denied();
    assert (STEPS + [DENIAL])[..|STEPS|] == STEPS;
  }

  /** Reconciling in the outcome's cycle breaks conservation once a reservation crosses into the next cycle:
      the old cycle keeps bytes that nobody will return, the new one falls below zero. */
  lemma CrossingCycleLosesBytes()
    ensures Conserved(CFG, EMPTY) && !Conserved(CFG, Run(CFG, EMPTY, STEPS + [DENIAL]))
  {
    hide Apply;
    RunStarts();
    Denied();
    assert (STEPS + [DENIAL])[..|STEPS|] == STEPS;
    var db := Run(CFG, EMPTY, STEPS + [DENIAL]);
    EmptyLedger(CFG, 0, 0);
    OutstandingWithout(CFG, 0, db.attempts, FIRST);
    assert db.attempts - {FIRST} == map[];
    assert !ConservedIn(CFG, db, 0, Outstanding(CFG, 0, db.attempts));
  }
}
