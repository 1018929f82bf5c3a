/** Concrete runs about a stored result: its replay under a later release, and its early purge. */
module RecoveryWitness {
  import opened Options
  import opened Contracts
  import opened ScrapeQueue
  import opened Coordinator
  import opened Completion
  import opened ActivatedPortal
  import Calendar

  const OUTCOME := CaptureOutcome(1, Calendar.EASTERN, "h", 10, "a", false, None, true)
  const COMPLETION := CompleteStep(NAS, LEASE, OUTCOME, At(T + 1))

  /** When the result expires. */
  const EXPIRES: Time := Calendar.Instant(Calendar.EASTERN.(date := Calendar.Anniversary(Calendar.EASTERN.date)))

  /** The database with the result. */
  const STORED := AcceptCapture(CLAIMED, 1, FIRST, OUTCOME, EXPIRES, T + 1)

  lemma CaptureExpires()
    ensures Calendar.TwoYearsAfter(Calendar.EASTERN).Some?
            && Calendar.Instant(Calendar.TwoYearsAfter(Calendar.EASTERN).value) == EXPIRES
            && Calendar.Instant(Calendar.EASTERN) == T
  {
    hide Calendar.Instant;
    Calendar.ExpiryInstant(Calendar.EASTERN);
  }

  lemma CaptureIsLeased()
    ensures Leased(CLAIMED, NAS, LEASE, At(T + 1))
  {
    hide T;
  }

  lemma Completes()
    ensures Complete(CLAIMED, NAS, LEASE, OUTCOME, At(T + 1)) == (STORED, Ok(()))
  {
    hide T, Leased, AcceptCapture, EXPIRES, Calendar.Instant, Calendar.TwoYearsAfter;
    CaptureExpires();
    CaptureIsLeased();
  }

  lemma CompletionStep(db: Db)
    ensures Apply(CFG, db, COMPLETION) == Complete(db, NAS, LEASE, OUTCOME, At(T + 1)).0
  {
    hide T, ApplyOutside, ApplyQueue, Complete;
  }

  lemma RunStored()
    ensures Run(CFG, EMPTY, SETUP + [COMPLETION]) == STORED
  {
    hide T, Apply, Run, Complete, CLAIMED, STORED;
    RunSetup();
    RunAppend(SETUP, COMPLETION);
    CompletionStep(CLAIMED);
    Completes();
  }

  // ----- the result is purged while it may still be served

  lemma StoredIsServed(now: Time)
    requires now < EXPIRES
    ensures Servable(STORED, Gratka, 7, now, 1)
  {
    hide T, EXPIRES, Calendar.Instant;
  }

  lemma StoredRow(today: Calendar.Moment)
    requires Calendar.TwoYearCutoff(today).Some? && T < Calendar.Instant(Calendar.TwoYearCutoff(today).value)
    ensures PurgeRow(STORED, today, 1) && STORED.results[1].expiresAt == EXPIRES
  {
    hide EXPIRES, Calendar.Instant, Calendar.TwoYearCutoff;
  }

  /** On some day the purge selects the result of a capture stamped 00:30 on 1 March at UTC+1, while the worker API
      still serves it. */
  lemma ServedResultIsPurged() returns (today: Calendar.Moment)
    ensures Calendar.ValidMoment(today) && today.offset == 0
    ensures var db := Run(CFG, EMPTY, SETUP + [COMPLETION]);
            PurgeRow(db, today, 1) && Servable(db, Gratka, 7, Calendar.Instant(today), 1)
            && 1 !in Apply(CFG, db, PurgeStep({1}, today)).results
  {
    hide T, Apply, Run, STORED, PurgeRow, Servable, EXPIRES, Calendar.Instant, Calendar.TwoYearCutoff, Calendar.TwoYearsAfter;
    Calendar.EasternCapturePurgedEarly();
    CaptureExpires();
    today :| Calendar.CutoffReaches(today, Calendar.EASTERN_IN_UTC)
             && !(Calendar.TwoYearsAfter(Calendar.EASTERN).Some?
                  && Calendar.Instant(Calendar.TwoYearsAfter(Calendar.EASTERN).value) <= Calendar.Instant(today));
    RunStored();
    StoredRow(today);
    StoredIsServed(Calendar.Instant(today));
    PurgesRow(STORED, today);
  }

  lemma PurgesRow(db: Db, today: Calendar.Moment)
    requires PurgeRow(db, today, 1)
    ensures 1 !in Apply(CFG, db, PurgeStep({1}, today)).results
  {
    hide ApplyLease, ApplyQueue, PurgeRow;
  }

  // ----- a replay and its retry

  const REPLAY_KEY := ReplayKey(Gratka, "h", "b")
  const REPLAY := Task(Gratka, 7, "u", ArtifactRecovery, "b", 2, REPLAY_KEY, Pending, 10, T + 3, T + 3, 0,
                       None, None, None, None, None, false, None)
  const REPLAY_LEASE := ScrapeLease(2, Gratka, 7, "u", ArtifactRecovery, "b", 2, 101, T + 60_000_003, 1)

  const PLAN := PlanReplayStep(2, Gratka, "b", 2, 1, "u", T + 3)
  const CLAIM := ClaimStep(NAS, {ArtifactRecovery}, {}, Some(2), 101, T + 3, T + 3)

  const PLANNED := AddReplay(Switched(STORED), 2, REPLAY, Binding(1, Calendar.EASTERN, EXPIRES))
  ghost const REPLAYING := TakeLease(CFG, PLANNED, NAS, 2, Pointer("b", 2), 101, T + 3)

  lemma StaysOnFirst()
    ensures OnFirst(STORED)
  {
    hide T, EXPIRES;
  }

  lemma NewReplayKey()
    ensures forall other :: !HasKey(Switched(STORED), REPLAY_KEY, other)
    ensures 2 !in STORED.tasks
  {
    hide T, EXPIRES;
  }

  lemma StoredCapture()
    ensures 1 in STORED.results && STORED.results[1].captureId == 1 && STORED.results[1].releaseHash == "a"
    ensures STORED.results[1].expiresAt == EXPIRES
    ensures 1 in STORED.captures && STORED.captures[1] == Capture(7, Calendar.EASTERN, "h")
  {
    hide T, EXPIRES;
  }

  lemma Plans()
    ensures PlanReplay(Switched(STORED), 2, Gratka, "b", 2, 1, "u", T + 3).0 == PLANNED
  {
    hide T, EXPIRES, STORED, HasKey, AddReplay;
    StoredCapture();
    NewReplayKey();
  }

  lemma ReplayPlanned()
    ensures PLANNED.workers == ACTIVE.workers && PLANNED.pointers == map[Gratka := Pointer("b", 2)]
    ensures 2 in PLANNED.tasks && PLANNED.tasks[2] == REPLAY
  {
    hide T, EXPIRES;
  }

  lemma PicksReplay()
    ensures ClaimRow(CFG, PLANNED, NAS, {ArtifactRecovery}, {}, T + 3, Some(2))
  {
    hide T, PLANNED;
    ReplayPlanned();
    OnlyReplay();
  }

  lemma OnlyReplay()
    ensures forall id :: id in PLANNED.tasks && PLANNED.tasks[id].taskClass.ArtifactRecovery? ==> id == 2
    ensures 101 !in PLANNED.issued
  {
    hide T, EXPIRES;
  }

  lemma NasIsHealthy(db: Db)
    requires db.workers == ACTIVE.workers
    ensures HealthyWorker(CFG.queue, db, NAS, T + 3) && "b" in db.workers["n"].releases
  {
    hide T;
  }

  lemma TakesReplay()
    ensures Claim(CFG, PLANNED, NAS, Some(2), 101, T + 3, T + 3).0 == REPLAYING
  {
    hide T, PLANNED;
    ReplayPlanned();
    NasIsHealthy(PLANNED);
    ClaimTakes(PLANNED, 2, Pointer("b", 2), 101, T + 3);
  }

  lemma ClaimTakes(db: Db, id: TaskId, pin: Pointer, token: Token, now: Time)
    requires HealthyWorker(CFG.queue, db, NAS, now) && pin.releaseHash in db.workers["n"].releases
    requires id in db.tasks && !db.tasks[id].taskClass.DiscoveryCapture? && Gratka in db.pointers && db.pointers[Gratka] == pin
    ensures Claim(CFG, db, NAS, Some(id), token, now, now).0 == TakeLease(CFG, db, NAS, id, pin, token, now)
  {
    hide T, CFG, TakeLease, LeaseOf, ClaimedTask;
  }

  lemma PlanAndClaim()
    ensures Apply(CFG, Switched(STORED), PLAN) == PLANNED && Apply(CFG, PLANNED, CLAIM) == REPLAYING
  {
    hide T, ApplyLease, ApplyOutside, Reap, ReapRows, Enqueue, PlanReplay, ReleaseHeld, Claim, ClaimRow;
    hide PLANNED, REPLAYING, STORED, Switched;
    Plans();
    PicksReplay();
    OnlyReplay();
    TakesReplay();
  }

  const STEPS := SETUP + [COMPLETION] + [SWITCH] + [PLAN] + [CLAIM]

  lemma RunReplaying()
    ensures Run(CFG, EMPTY, STEPS) == REPLAYING
  {
    hide T, Apply, Run, Switched, STORED, PLANNED, REPLAYING, OnFirst;
    RunStored();
    RunAppend(SETUP + [COMPLETION], SWITCH);
    StaysOnFirst();
    Switches(STORED);
    RunAppend(SETUP + [COMPLETION] + [SWITCH], PLAN);
    RunAppend(SETUP + [COMPLETION] + [SWITCH] + [PLAN], CLAIM);
    PlanAndClaim();
  }

  lemma ReplayIsLeased(now: Time)
    requires T + 3 <= now < T + 60_000_003
    ensures Leased(REPLAYING, NAS, REPLAY_LEASE, At(now))
  {
    hide T, REPLAYING, Registered, PointsAt;
    ReplayRow();
    ReplayIsCurrent();
  }

  lemma ReplayRow()
    ensures 2 in REPLAYING.tasks
            && REPLAYING.tasks[2] == REPLAY.(state := Running, attemptCount := 1, leaseOwner := Some("n"), leaseToken := Some(101),
                                             leaseStartedAt := Some(T + 3), leaseExpiresAt := Some(T + 60_000_003))
  {
    hide T, PLANNED;
    ReplayPlanned();
  }

  lemma ReplayIsCurrent()
    ensures Registered(REPLAYING, NAS) && PointsAt(REPLAYING, Gratka, "b", 2)
  {
    hide T, PLANNED, REPLAYING, ACTIVE, Registered;
    ReplayPlanned();
    ReplayTables();
    NasIsRegistered(REPLAYING);
  }

  lemma NasIsRegistered(db: Db)
    requires db.workers == ACTIVE.workers
    ensures Registered(db, NAS)
  {
    hide T;
  }

  lemma ReplayTables()
    ensures REPLAYING.workers == PLANNED.workers && REPLAYING.pointers == PLANNED.pointers
  {
    hide T, PLANNED, ACTIVE, REPLAY, CFG, ClaimedTask, NewAttempt;
    assert 2 in PLANNED.tasks by { ReplayPlanned(); }
  }

  lemma ReplayRows()
    ensures 2 in REPLAYING.bindings && REPLAYING.bindings[2].captureId == 1 && 2 !in REPLAYING.results
    ensures AttemptKey(2, 1) in REPLAYING.attempts && 2 in REPLAYING.tasks && REPLAYING.tasks[2].attemptCount == 1
  {
    hide T, EXPIRES;
  }

  lemma ReplayCompletes(now: Time)
    requires T + 3 <= now < T + 60_000_003
    ensures CompleteReplay(REPLAYING, NAS, REPLAY_LEASE, 1, "b", "r", false, At(now)).1.Ok?
  {
    hide T, REPLAYING, Leased, AcceptReplay;
    ReplayIsLeased(now);
    ReplayRows();
  }

  /** The result is replayed under the next release.  The replay is accepted, and the same call repeated at the same
      instant is refused. */
  lemma ReplayRetryFails(now: Time)
    requires T + 3 <= now < T + 60_000_003
    ensures var db := Run(CFG, EMPTY, STEPS);
            var (done, reply) := CompleteReplay(db, NAS, REPLAY_LEASE, 1, "b", "r", false, At(now));
            reply.Ok? && done != db
            && CompleteReplay(done, NAS, REPLAY_LEASE, 1, "b", "r", false, At(now)).0 == done
            && !CompleteReplay(done, NAS, REPLAY_LEASE, 1, "b", "r", false, At(now)).1.Ok?
  {
    hide T, Apply, Run, CompleteReplay, REPLAYING;
    RunReplaying();
    ReplayCompletes(now);
    var done := CompleteReplay(REPLAYING, NAS, REPLAY_LEASE, 1, "b", "r", false, At(now)).0;
    RunNothing(CFG, done);
    ReplayRetryIsRefused(CFG, STEPS, NAS, REPLAY_LEASE, 1, "b", "r", false, At(now), [],
                         NAS, REPLAY_LEASE, 1, "b", "r", false, At(now));
  }
}
