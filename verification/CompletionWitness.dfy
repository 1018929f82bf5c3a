/** Concrete runs in which a completion is answered otherwise than one would expect. */
module CompletionWitness {
  import opened Options
  import opened Contracts
  import opened ScrapeQueue
  import opened Coordinator
  import opened Completion
  import opened ActivatedPortal
  import MidnightWitness
  import Calendar

  // ----- a completion under an attempt that was given up

  const SECOND := AttemptKey(1, 2)
  const SECOND_LEASE := LEASE.(token := 101, expiresAt := EXPIRY + 60_000_000, attemptNumber := 2)

  /** The capture of the second attempt: a minute after the first claim. */
  const LATE := Calendar.EASTERN.(clock := Calendar.EASTERN.clock + 60_000_000)
  const OUTCOME := CaptureOutcome(1, LATE, "h", 10, "a", false, None, true)

  const AGAIN: seq<Step> := [
    ReapStep([1], 1, {}, EXPIRY),
    ClaimStep(NAS, {Live}, {}, Some(1), 101, EXPIRY, EXPIRY)]

  const REAPED := CLAIMED.(
    tasks := map[1 := NEW.(attemptCount := 1, availableAt := EXPIRY)],
    attempts := map[FIRST := ATTEMPT.(finishedAt := Some(EXPIRY), outcome := Some(AttemptExpired), code := Some(LeaseExpired))])
  const RECLAIMED := REAPED.(
    tasks := map[1 := LEASED.(attemptCount := 2, availableAt := EXPIRY, leaseToken := Some(101), leaseStartedAt := Some(EXPIRY),
                              leaseExpiresAt := Some(EXPIRY + 60_000_000))],
    attempts := map[FIRST := REAPED.attempts[FIRST], SECOND := ATTEMPT.(token := 101, startedAt := EXPIRY)],
    issued := {100, 101}, log := [Claimed(1, 100), Claimed(1, 101)])

  lemma ReapsOnly()
    ensures ReapRows(CLAIMED, EXPIRY, 1, {}, [1])
  {
    hide T;
  }

  lemma ReapedRows()
    ensures ReapedTask(CFG.queue, LEASED, EXPIRY) == REAPED.tasks[1] && ReapedAttempt(ATTEMPT, EXPIRY) == REAPED.attempts[FIRST]
  {
    hide T;
  }

  lemma ReapTables()
    ensures Reap(CFG, CLAIMED, RowSet([1]), EXPIRY) == REAPED
  {
    hide T, ReapedTask, ReapedAttempt, CLAIMED, REAPED;
    assert RowSet([1]) == {1};
    OnlyTask();
    ReapedRows();
    var db := Reap(CFG, CLAIMED, {1}, EXPIRY);
    assert db.tasks == map[1 := ReapedTask(CFG.queue, LEASED, EXPIRY)];
    assert db.attempts == map[FIRST := ReapedAttempt(ATTEMPT, EXPIRY)];
  }

  lemma OnlyTask()
    ensures CLAIMED.tasks == map[1 := LEASED] && CLAIMED.attempts == map[FIRST := ATTEMPT] && LEASED.attemptCount == 1
    ensures REAPED == CLAIMED.(tasks := map[1 := REAPED.tasks[1]], attempts := map[FIRST := REAPED.attempts[FIRST]])
  {
    hide T;
  }

  lemma Reaps()
    ensures Apply(CFG, CLAIMED, AGAIN[0]) == REAPED
  {
    hide T, ApplyLease, ApplyOutside, Reap, ReapRows, Enqueue, PlanReplay, ReleaseHeld, Claim, ClaimRow;
    ReapsOnly();
    ReapTables();
  }

  lemma PicksAgain()
    ensures ClaimRow(CFG, REAPED, NAS, {Live}, {}, EXPIRY, Some(1))
  {
    hide T;
  }

  lemma SecondRows()
    ensures 1 in REAPED.tasks && 1 in RECLAIMED.tasks && SECOND in RECLAIMED.attempts
    ensures ClaimedTask(CFG.queue, REAPED.tasks[1], Pointer("a", 1), NAS, 101, EXPIRY) == RECLAIMED.tasks[1]
    ensures NewAttempt(RECLAIMED.tasks[1], 101, "n", EXPIRY) == RECLAIMED.attempts[SECOND] && RECLAIMED.tasks[1].attemptCount == 2
  {
    hide T;
  }

  lemma SecondTables()
    ensures 1 in REAPED.tasks && TakeLease(CFG, REAPED, NAS, 1, Pointer("a", 1), 101, EXPIRY) == RECLAIMED
  {
    hide T, ClaimedTask, NewAttempt;
    SecondRows();
  }

  lemma TakesAgain()
    ensures Claim(CFG, REAPED, NAS, Some(1), 101, EXPIRY, EXPIRY).0 == RECLAIMED
  {
    hide T, TakeLease, LeaseOf, ClaimedTask;
    SecondTables();
  }

  lemma Reclaims()
    ensures Apply(CFG, REAPED, AGAIN[1]) == RECLAIMED
  {
    hide T, ApplyLease, ApplyOutside, Reap, ReapRows, Enqueue, PlanReplay, ReleaseHeld, Claim, ClaimRow;
    PicksAgain();
    TakesAgain();
  }

  lemma RunAgain()
    ensures Run(CFG, EMPTY, SETUP + AGAIN) == RECLAIMED
  {
    hide T, Apply, Run, CLAIMED, REAPED, RECLAIMED;
    RunSetup();
    Reaps();
    Reclaims();
    RunConcat(CFG, EMPTY, SETUP, AGAIN);
    RunNone(CFG, CLAIMED, AGAIN);
    RunNext(CFG, CLAIMED, AGAIN, 0);
    RunNext(CFG, CLAIMED, AGAIN, 1);
    assert AGAIN[..2] == AGAIN;
  }

  lemma LateInstant()
    ensures Calendar.Instant(LATE) == EXPIRY && Calendar.TwoYearsAfter(LATE).Some?
  {
    hide Calendar.DayNumber;
    Calendar.ExpiryInstant(LATE);
  }

  lemma SecondIsLeased(now: Time)
    requires EXPIRY <= now < EXPIRY + 60_000_000
    ensures Leased(RECLAIMED, NAS, SECOND_LEASE, At(now)) && !Leased(RECLAIMED, NAS, LEASE, At(now))
  {
    hide T;
  }

  lemma BothMayReport(now: Time)
    requires EXPIRY <= now
    ensures OutcomeAccepted(LEASE, OUTCOME, now) && OutcomeAccepted(SECOND_LEASE, OUTCOME, now)
  {
    hide T, Calendar.Instant;
    LateInstant();
  }

  /** Until the second attempt has completed, the first lease is refused. */
  lemma SecondCompletes(now: Time)
    requires EXPIRY <= now < EXPIRY + 60_000_000
    ensures Complete(RECLAIMED, NAS, LEASE, OUTCOME, At(now)) == (RECLAIMED, LostLease)
    ensures var (done, reply) := Complete(RECLAIMED, NAS, SECOND_LEASE, OUTCOME, At(now));
            reply.Ok? && 1 in done.results && FIRST in done.attempts && done.attempts[FIRST] == RECLAIMED.attempts[FIRST]
  {
    hide T, Leased, OutcomeAccepted, Calendar.Instant, Calendar.TwoYearsAfter;
    SecondIsLeased(now);
    BothMayReport(now);
    LateInstant();
  }

  /** A lease expires and the task is claimed again under the same release and epoch.  The completion under the first
      lease is refused before the one under the second is accepted, and acknowledged after it. */
  lemma GivenUpAttemptIsAcknowledged(now: Time)
    requires EXPIRY <= now < EXPIRY + 60_000_000
    ensures var db := Run(CFG, EMPTY, SETUP + AGAIN);
            var (done, reply) := Complete(db, NAS, SECOND_LEASE, OUTCOME, At(now));
            LEASE.token != SECOND_LEASE.token && LEASE.attemptNumber != SECOND_LEASE.attemptNumber
            && Complete(db, NAS, LEASE, OUTCOME, At(now)) == (db, LostLease)
            && reply.Ok?
            && Complete(done, NAS, LEASE, OUTCOME, At(now)).0 == done && Complete(done, NAS, LEASE, OUTCOME, At(now)).1.Ok?
  {
    hide T, Apply, Run, Complete, OutcomeAccepted;
    RunAgain();
    SecondCompletes(now);
    BothMayReport(now);
    var done := Complete(RECLAIMED, NAS, SECOND_LEASE, OUTCOME, At(now)).0;
    RunNothing(CFG, done);
    assert NamesAttempt(done, NAS, LEASE) && SamePin(SECOND_LEASE, LEASE);
    DifferingRetryIsRejected(CFG, SETUP + AGAIN, NAS, SECOND_LEASE, OUTCOME, At(now), [], NAS, LEASE, OUTCOME, At(now));
  }

  // ----- a discovery acknowledged for anybody

  const MIDNIGHT := Calendar.Moment(Calendar.Date(1, 1, 1), 0, 0)
  const DISCOVERY := CaptureOutcome(1, MIDNIGHT, "h", 10, "r", false, Some(3), true)
  const STRANGER := WorkerIdentity("nobody", Otodom, Vps)

  lemma MidnightInstant()
    ensures Calendar.Instant(MIDNIGHT) == MidnightWitness.MIDNIGHT
  {
    assert Calendar.DaysBeforeYear(1) == 0;
  }

  lemma DiscoveryMayBeReported(now: Time)
    requires MidnightWitness.MIDNIGHT <= now
    ensures OutcomeAccepted(MidnightWitness.LeaseFor(1), DISCOVERY, now)
  {
    MidnightInstant();
    hide Calendar.Instant, MidnightWitness.MIDNIGHT;
  }

  lemma DiscoveryIsLeased(now: Time)
    requires MidnightWitness.MIDNIGHT <= now < MidnightWitness.EXPIRY
    ensures Leased(MidnightWitness.BOTH_CLAIMED, MidnightWitness.WORKER, MidnightWitness.LeaseFor(1), At(now))
    ensures !Registered(MidnightWitness.BOTH_CLAIMED, STRANGER)
  {
  }

  lemma DiscoveryCompletes(now: Time)
    requires MidnightWitness.MIDNIGHT <= now < MidnightWitness.EXPIRY
    ensures Complete(MidnightWitness.BOTH_CLAIMED, MidnightWitness.WORKER, MidnightWitness.LeaseFor(1), DISCOVERY, At(now)).1.Ok?
  {
    hide MidnightWitness.BOTH_CLAIMED, MidnightWitness.MIDNIGHT, MidnightWitness.LeaseFor, Leased, OutcomeAccepted, Calendar.Instant;
    MidnightInstant();
    DiscoveryIsLeased(now);
    DiscoveryMayBeReported(now);
    BothDiscoveriesOpen();
  }

  lemma BothDiscoveriesOpen()
    ensures var db := MidnightWitness.BOTH_CLAIMED;
            db.discoveries == map[] && db.captures == map[] && 1 in db.tasks && MidnightWitness.ONE in db.attempts
            && db.tasks[1].attemptCount == 1 && db.tasks[1].leaseStartedAt == Some(MidnightWitness.BEFORE)
    ensures MidnightWitness.LeaseFor(1).taskId == 1 && MidnightWitness.LeaseFor(1).taskClass == DiscoveryCapture
  {
  }

  /** A discovery capture completed by its worker is acknowledged for a worker that does not exist, of another portal. */
  lemma StrangerIsAcknowledged(now: Time)
    requires MidnightWitness.MIDNIGHT <= now < MidnightWitness.EXPIRY
    ensures var db := Run(MidnightWitness.CFG, EMPTY, MidnightWitness.STEPS[..6]);
            var lease := MidnightWitness.LeaseFor(1);
            var (done, reply) := Complete(db, MidnightWitness.WORKER, lease, DISCOVERY, At(now));
            reply.Ok? && !Registered(db, STRANGER) && STRANGER.source != lease.source
            && Complete(done, STRANGER, lease, DISCOVERY, At(now)) == (done, Ok(()))
  {
    hide Apply, Run, Complete, MidnightWitness.BOTH_CLAIMED, OutcomeAccepted, Registered;
    MidnightWitness.RunClaims();
    DiscoveryCompletes(now);
    DiscoveryIsLeased(now);
    DiscoveryMayBeReported(now);
    var lease := MidnightWitness.LeaseFor(1);
    var done := Complete(MidnightWitness.BOTH_CLAIMED, MidnightWitness.WORKER, lease, DISCOVERY, At(now)).0;
    RunNothing(MidnightWitness.CFG, done);
    DiscoveryRetry(MidnightWitness.CFG, MidnightWitness.STEPS[..6], MidnightWitness.WORKER, lease, DISCOVERY, At(now), [],
                   STRANGER, DISCOVERY, At(now));
  }
}
