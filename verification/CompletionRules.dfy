/** What completions accept and leave behind, in terms of the rows alone. */
module CompletionRules {
  import opened Options
  import opened Contracts
  import opened ScrapeQueue
  import opened Fencing
  import opened Changes
  import opened QueueRules

  /** What a capture or discovery must be, whatever the task's rows say. */
  predicate WellFormed(lease: ScrapeLease, outcome: CaptureOutcome, now: Time) {
    lease.taskClass in {Live, NetworkRecovery, DiscoveryCapture} && outcome.valid
    && 0 < outcome.sizeBytes <= 2_000_000 && outcome.releaseHash == lease.releaseHash
    && Calendar.Instant(outcome.fetchedAt) <= now
    && (lease.taskClass == DiscoveryCapture ==> outcome.artifactId.Some?)
  }

  lemma WellFormedExactly(lease: ScrapeLease, outcome: CaptureOutcome, now: Time)
    ensures OutcomeAccepted(lease, outcome, now) <==> WellFormed(lease, outcome, now)
  {
  }

  /** Complete, or with fields missing and then with or without an artifact to look at. */
  function CodeFor(outcome: CaptureOutcome): Code {
    match (outcome.missingFields, outcome.artifactId)
    case (false, _) => Downloaded
    case (true, Some(_)) => Partial
    case (true, None) => ArtifactUnavailable
  }

  /** The first completion of a task that is no discovery is accepted exactly if the outcome is well formed, was fetched
      under this lease and not later than now, expires inside the calendar, names a new capture, and the lease is
      current.  It writes the capture, the result pinned to the task, and ends task and attempt. */
  lemma CompleteExactly(db: Db, worker: WorkerIdentity, lease: ScrapeLease, outcome: CaptureOutcome, clock: Clock)
    requires Fenced(db) && lease.taskClass != DiscoveryCapture && lease.taskId !in db.results
    ensures Leased(db, worker, lease, clock) ==> Runs(db, lease.taskId) && db.tasks[lease.taskId].leaseStartedAt.Some?
    ensures var (db', reply) := Complete(db, worker, lease, outcome, clock);
            var id := lease.taskId;
            var expiry := Calendar.TwoYearsAfter(outcome.fetchedAt);
            (reply.Ok? <==>
               WellFormed(lease, outcome, clock.now) && Leased(db, worker, lease, clock)
               && db.tasks[id].leaseStartedAt.value <= Calendar.Instant(outcome.fetchedAt)
               && expiry.Some? && outcome.captureId !in db.captures)
            && (!reply.Ok? ==> db' == db)
            && (reply.Ok? ==>
                  Runs(db, id)
                  && var t := db.tasks[id];
                     expiry.Some?
                     && Ends(db.(captures := db.captures[outcome.captureId := Capture(t.snapshotId, outcome.fetchedAt, outcome.contentHash)],
                                 results := db.results[id := ParserResult(outcome.captureId, t.releaseHash, t.activationEpoch, Fetched(outcome),
                                                                          Calendar.Instant(expiry.value))],
                                 log := db.log + [Accepted(id)]),
                             db', id, Freed(t).(state := Succeeded, finishedAt := Some(clock.current)),
                             clock.current, AttemptSucceeded, CodeFor(outcome), outcome.sizeBytes))
  {
    hide Fenced, Leased, OpenUnder, OutcomeAccepted, WellFormed, Calendar.Instant, Calendar.TwoYearsAfter;
    WellFormedExactly(lease, outcome, clock.now);
    LeaseStarted(db, worker, lease, clock);
    PointedAt(db, worker, lease, clock);
  }

  lemma PointedAt(db: Db, worker: WorkerIdentity, lease: ScrapeLease, clock: Clock)
    ensures Leased(db, worker, lease, clock) && lease.taskClass != DiscoveryCapture ==> worker.source in db.pointers
  {
  }

  lemma LeaseStarted(db: Db, worker: WorkerIdentity, lease: ScrapeLease, clock: Clock)
    requires Fenced(db)
    ensures Leased(db, worker, lease, clock) ==> Runs(db, lease.taskId) && db.tasks[lease.taskId].leaseStartedAt.Some?
  {
    hide Fenced, Leased;
    if Leased(db, worker, lease, clock) {
      LeasedFacts(db, worker, lease, clock);
      SoundTask(db, lease.taskId);
    }
  }

  /** The first completion of a discovery: besides capture and lease its artifact must be new.  It records the discovery
      and no production result. */
  lemma DiscoveryExactly(db: Db, worker: WorkerIdentity, lease: ScrapeLease, outcome: CaptureOutcome, clock: Clock)
    requires Fenced(db) && lease.taskClass == DiscoveryCapture && lease.taskId !in db.discoveries
    ensures Leased(db, worker, lease, clock) ==> Runs(db, lease.taskId) && db.tasks[lease.taskId].leaseStartedAt.Some?
    ensures var (db', reply) := Complete(db, worker, lease, outcome, clock);
            var id := lease.taskId;
            (reply.Ok? <==>
               WellFormed(lease, outcome, clock.now) && Leased(db, worker, lease, clock)
               && db.tasks[id].leaseStartedAt.value <= Calendar.Instant(outcome.fetchedAt) && outcome.captureId !in db.captures
               && forall other :: other in db.discoveries ==> Some(db.discoveries[other].artifactId) != outcome.artifactId)
            && (!reply.Ok? ==> db' == db)
            && (reply.Ok? ==>
                  Runs(db, id) && outcome.artifactId.Some?
                  && var t := db.tasks[id];
                     Ends(db.(captures := db.captures[outcome.captureId := Capture(t.snapshotId, outcome.fetchedAt, outcome.contentHash)],
                              discoveries := db.discoveries[id := Discovery(outcome.captureId, outcome.artifactId.value, outcome.contentHash)]),
                          db', id, Freed(t).(state := Succeeded, finishedAt := Some(clock.current)),
                          clock.current, AttemptSucceeded, DiscoveryCaptured, outcome.sizeBytes))
  {
    hide Fenced, Leased, OpenUnder, OutcomeAccepted, Calendar.Instant;
    WellFormedExactly(lease, outcome, clock.now);
    LeaseStarted(db, worker, lease, clock);
  }

  /** A replay is accepted exactly for a current lease of a replay task, for the capture it was planned with, once. */
  lemma ReplayExactly(db: Db, worker: WorkerIdentity, lease: ScrapeLease, captureId: CaptureId, releaseHash: Hash,
                      content: string, missing: bool, clock: Clock)
    requires Fenced(db)
    ensures var (db', reply) := CompleteReplay(db, worker, lease, captureId, releaseHash, content, missing, clock);
            var id := lease.taskId;
            (reply.Ok? <==>
               lease.taskClass == ArtifactRecovery && releaseHash == lease.releaseHash && Leased(db, worker, lease, clock)
               && id in db.bindings && db.bindings[id].captureId == captureId && id !in db.results)
            && (!reply.Ok? ==> db' == db)
            && (reply.Ok? ==>
                  Runs(db, id) && id in db.bindings
                  && var t, a := db.tasks[id], db.attempts[Newest(db, id)];
                     Ends(db.(results := db.results[id := ParserResult(captureId, t.releaseHash, t.activationEpoch, Replayed(content),
                                                                       db.bindings[id].resultExpiresAt)],
                              log := db.log + [Accepted(id)]),
                          db', id, Freed(t).(state := Succeeded, finishedAt := Some(clock.now)),
                          clock.now, AttemptSucceeded, if missing then Partial else Downloaded, a.responseBytes))
  {
    hide Fenced, Leased, OpenUnder;
    LeaseStarted(db, worker, lease, clock);
  }

  /** What a handoff that is not recorded yet writes once it is accepted. */
  lemma HandoffRecords(db: Db, worker: WorkerIdentity, lease: ScrapeLease, target: Portal, listing: Option<string>, handoff: int, now: Time)
    requires Fenced(db) && listing.Some? && HandoffKey(lease.taskId, target, listing.value) !in db.handoffs
    requires Redirects.Handoff(db, worker, lease, target, listing, handoff, now).1.Ok?
    ensures var (db', reply) := Redirects.Handoff(db, worker, lease, target, listing, handoff, now);
            var id := lease.taskId;
            reply == Ok(handoff) && Runs(db, id)
            && var t, a := db.tasks[id], db.attempts[Newest(db, id)];
               Ends(db.(handoffs := db.handoffs[HandoffKey(id, target, listing.value) := handoff]), db', id,
                    Freed(t).(state := Succeeded, finishedAt := Some(now)), now, AttemptSucceeded, Redirected, a.responseBytes)
  {
    hide Fenced, OpenUnder;
    HandoffNewest(db, worker, lease, now);
  }
}
