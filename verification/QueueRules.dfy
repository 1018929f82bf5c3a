/** What the queue's transactions accept and leave behind, in terms of the rows alone. */
module QueueRules {
  import opened Options
  import opened Contracts
  import opened ScrapeQueue
  import opened SourceBudget
  import opened DenialPolicy
  import opened Coordinator
  import opened Fencing
  import opened Changes
  import opened Effects
  import opened Fence
  import opened LeaseLife
  import Persistence

  // ----- claims

  /** The worker's row is its own, says healthy, and was written less than the health period before `at`. */
  predicate Fit(queue: QueuePolicy, db: Db, worker: WorkerIdentity, at: Time) {
    worker.workerId in db.workers
    && var row := db.workers[worker.workerId];
       row.source == worker.source && row.deployment == worker.deployment && row.healthy
       && at - row.heartbeatAt < Seconds(queue.workerHealthSeconds)
  }

  /** A task that the claim may take: of the portal and the classes, waiting, due, with an attempt left, not locked; and
      without an active release only discovery. */
  predicate Eligible(queue: QueuePolicy, db: Db, worker: WorkerIdentity, classes: set<TaskClass>, locked: set<TaskId>, now: Time, id: TaskId) {
    id in db.tasks && id !in locked
    && var t := db.tasks[id];
       t.source == worker.source && t.taskClass in classes && t.state in {Pending, Deferred}
       && t.availableAt <= now && t.attemptCount < queue.maxAttempts
       && (t.taskClass != DiscoveryCapture ==> worker.source in db.pointers)
  }

  /** `a` comes before `b`: by priority, then availability, then age, then identifier. */
  predicate ComesFirst(db: Db, a: TaskId, b: TaskId)
    requires a in db.tasks && b in db.tasks
  {
    var s, t := db.tasks[a], db.tasks[b];
    s.priority <= t.priority
    && (s.priority == t.priority ==> s.availableAt <= t.availableAt)
    && (s.priority == t.priority && s.availableAt == t.availableAt ==> s.createdAt <= t.createdAt)
    && (s.priority == t.priority && s.availableAt == t.availableAt && s.createdAt == t.createdAt ==> a < b)
  }

  lemma QueryPicksFirst(cfg: Config, db: Db, worker: WorkerIdentity, classes: set<TaskClass>, locked: set<TaskId>, now: Time, pick: Option<TaskId>)
    requires ClaimRow(cfg, db, worker, classes, locked, now, pick)
    ensures pick.None? <==> forall id :: !Eligible(cfg.queue, db, worker, classes, locked, now, id)
    ensures pick.Some? ==> Eligible(cfg.queue, db, worker, classes, locked, now, pick.value)
    ensures forall id :: pick.Some? && id != pick.value && Eligible(cfg.queue, db, worker, classes, locked, now, id) ==>
              ComesFirst(db, pick.value, id)
  {
    forall id ensures Eligible(cfg.queue, db, worker, classes, locked, now, id) <==> ClaimCandidate(cfg, db, worker, classes, locked, now, id) {
    }
  }

  /** The release and epoch a lease of the task is pinned to. */
  function PinFor(db: Db, t: Task): Pointer
    requires t.taskClass == DiscoveryCapture || t.source in db.pointers
  {
    if t.taskClass == DiscoveryCapture then Pointer(t.releaseHash, t.activationEpoch) else db.pointers[t.source]
  }

  /** For every answer of the query a lease is granted exactly if there is a row, the worker is fit at both readings,
      and it advertises the release that the lease will be pinned to. */
  lemma ClaimGrantedExactly(cfg: Config, db: Db, worker: WorkerIdentity, classes: set<TaskClass>, locked: set<TaskId>,
                            pick: Option<TaskId>, token: Token, now: Time, current: Time)
    requires ClaimRow(cfg, db, worker, classes, locked, now, pick)
    ensures pick.Some? ==> Eligible(cfg.queue, db, worker, classes, locked, now, pick.value)
    ensures var lease := Claim(cfg, db, worker, pick, token, now, current).1;
            lease.Some? <==>
              pick.Some? && Fit(cfg.queue, db, worker, now) && Fit(cfg.queue, db, worker, current)
              && PinFor(db, db.tasks[pick.value]).releaseHash in db.workers[worker.workerId].releases
    ensures Claim(cfg, db, worker, pick, token, now, current).1.None? ==> Claim(cfg, db, worker, pick, token, now, current).0 == db
  {
    hide TakeLease, ClaimedTask, LeaseOf, ClaimBefore;
    QueryPicksFirst(cfg, db, worker, classes, locked, now, pick);
  }

  /** What a granted claim writes and hands out: a lease under the token from the second reading on, for a release that
      the worker advertises. */
  lemma GrantedLease(cfg: Config, db: Db, worker: WorkerIdentity, classes: set<TaskClass>, locked: set<TaskId>,
                     id: TaskId, token: Token, now: Time, current: Time)
    requires ClaimRow(cfg, db, worker, classes, locked, now, Some(id))
    requires Claim(cfg, db, worker, Some(id), token, now, current).1.Some?
    ensures Eligible(cfg.queue, db, worker, classes, locked, now, id)
    ensures var (db', lease) := Claim(cfg, db, worker, Some(id), token, now, current);
            var t, pin, expiry := db.tasks[id], PinFor(db, db.tasks[id]), current + Seconds(cfg.queue.leaseSeconds);
            lease.value.releaseHash in db.workers[worker.workerId].releases
            && lease.value == ScrapeLease(id, t.source, t.snapshotId, t.canonicalUrl, t.taskClass, pin.releaseHash, pin.epoch,
                                          token, expiry, t.attemptCount + 1)
            && db' == db.(
                 tasks := db.tasks[id := t.(state := Running, attemptCount := t.attemptCount + 1,
                                            releaseHash := pin.releaseHash, activationEpoch := pin.epoch,
                                            leaseOwner := Some(worker.workerId), leaseToken := Some(token),
                                            leaseStartedAt := Some(current), leaseExpiresAt := Some(expiry))],
                 attempts := db.attempts[AttemptKey(id, t.attemptCount + 1) :=
                   Attempt(token, worker.workerId, pin.releaseHash, pin.epoch, current, None, None, None, Unassigned, None, 0, None, None, 0)],
                 issued := db.issued + {token}, log := db.log + [Claimed(id, token)])
  {
    hide ClaimBefore;
    QueryPicksFirst(cfg, db, worker, classes, locked, now, Some(id));
    ClaimGrantedExactly(cfg, db, worker, classes, locked, Some(id), token, now, current);
  }

  // ----- waiting

  /** A waiting row moves only by a claim that reads a clock at which it is due. */
  lemma WaitingRowStays(cfg: Config, db: Db, c: Change, step: Step, id: TaskId)
    requires Permitted(cfg, db, c) && Traces(step, c) && id in db.tasks && db.tasks[id].state in {Pending, Deferred}
    requires !(c.LeaseTaken? && c.id == id)
    ensures NextRow(cfg, c, id, db.tasks[id]) == db.tasks[id]
  {
    hide Permitted, Commit, QueueCommit, LeaseCommit, EndCommit, BudgetCommit, NewKey, Blank, Traces;
    hide ReapedTask, ClaimedTask, FinishedTask, RefundedTask, SucceededTask, FallbackConsumed, FallbackTask;
    if Queueing(c) {
      QueueCommits(cfg, db, c);
    } else if Holding(c) {
      LeaseCommits(cfg, db, c);
    } else if Finishing(c) {
      EndCommits(cfg, db, c);
    } else if Budgeting(c) {
      BudgetCommits(cfg, db, c);
    }
  }

  lemma ClaimIsDue(cfg: Config, db: Db, step: Step, id: TaskId)
    requires step.ClaimStep? && id in db.tasks && db.tasks[id].availableAt > step.now
    requires step.pick == Some(id)
    ensures Apply(cfg, db, step) == db
  {
    hide ApplyLease, ApplyOutside, Reap, ReapRows, Enqueue, PlanReplay, ReleaseHeld, Claim;
  }

  lemma StepWaits(cfg: Config, db: Db, step: Step, id: TaskId)
    requires Fenced(db) && id in db.tasks && db.tasks[id].state in {Pending, Deferred}
    requires step.ClaimStep? ==> step.now < db.tasks[id].availableAt
    ensures id in Apply(cfg, db, step).tasks && Apply(cfg, db, step).tasks[id] == db.tasks[id]
  {
    hide Fenced, Apply, Permitted, Commit, NextRow;
    if step.ClaimStep? && step.pick == Some(id) {
      ClaimIsDue(cfg, db, step, id);
    } else {
      var c := StepCommits(cfg, db, step);
      TakenByPick(step, c, id);
      ChangeEffect(cfg, db, c);
      WaitingRowStays(cfg, db, c, step, id);
    }
  }

  lemma TakenByPick(step: Step, c: Change, id: TaskId)
    requires Traces(step, c) && !(step.ClaimStep? && step.pick == Some(id))
    ensures !(c.LeaseTaken? && c.id == id)
  {
  }

  /** A waiting task is not touched before it is due: as long as every claim reads an earlier clock, its row stays as it
      is, whatever else happens. */
  lemma {:induction false} WaitsUntilDue(cfg: Config, db: Db, steps: seq<Step>, id: TaskId)
    requires Fenced(db) && id in db.tasks && db.tasks[id].state in {Pending, Deferred}
    requires forall i :: 0 <= i < |steps| && steps[i].ClaimStep? ==> steps[i].now < db.tasks[id].availableAt
    ensures id in Run(cfg, db, steps).tasks && Run(cfg, db, steps).tasks[id] == db.tasks[id]
    decreases |steps|
  {
    hide Fenced, Apply, Settles;
    if steps != [] {
      var n := |steps| - 1;
      WaitsUntilDue(cfg, db, steps[..n], id);
      RunSettles(cfg, db, steps[..n]);
      StepWaits(cfg, Run(cfg, db, steps[..n]), steps[n], id);
    }
  }

  // ----- endings

  /** The row without its lease. */
  function Freed(t: Task): Task {
    t.(leaseOwner := None, leaseToken := None, leaseStartedAt := None, leaseExpiresAt := None)
  }

  /** The newest attempt of the task ends, and nothing else is written but the two rows. */
  predicate Ends(db: Db, db': Db, id: TaskId, t': Task, at: Time, outcome: AttemptOutcome, code: Code, bytes: int) {
    Runs(db, id)
    && var k := Newest(db, id);
       db' == db.(tasks := db.tasks[id := t'],
                  attempts := db.attempts[k := db.attempts[k].(finishedAt := Some(at), outcome := Some(outcome), code := Some(code),
                                                               responseBytes := bytes)])
  }

  lemma FinishAnswers(cfg: Config, db: Db, worker: WorkerIdentity, lease: ScrapeLease, f: Finish, clock: Clock)
    requires Fenced(db)
    ensures var (db', reply) := FinishLease(cfg, db, worker, lease, f, clock);
            (reply.Ok? <==> 0 <= f.responseBytes <= 2_000_000 && Leased(db, worker, lease, clock))
            && (!reply.Ok? ==> db' == db)
            && (reply.Ok? ==> Runs(db, lease.taskId))
  {
    hide Fenced, Leased, OpenUnder, RefundAttempt, CloseAttempt, Settled;
    if Leased(db, worker, lease, clock) {
      LeasedFacts(db, worker, lease, clock);
      OpenAttempt(db, lease.taskId);
    }
  }

  lemma OpenAttempt(db: Db, id: TaskId)
    requires Runs(db, id)
    ensures db.attempts[Newest(db, id)].finishedAt.None?
  {
  }

  /** `succeed` is accepted exactly for its codes and sizes under a current lease, and closes task and attempt. */
  lemma SucceedExactly(cfg: Config, db: Db, worker: WorkerIdentity, lease: ScrapeLease, code: Code, bytes: int, clock: Clock)
    requires Fenced(db)
    ensures var (db', reply) := Succeed(cfg, db, worker, lease, code, bytes, clock);
            (reply.Ok? <==> code in {Downloaded, Partial, ArtifactUnavailable} && 0 <= bytes <= 2_000_000 && Leased(db, worker, lease, clock))
            && (!reply.Ok? ==> db' == db)
            && (reply.Ok? ==>
                  lease.taskId in db.tasks && reply.value == Succeeded
                  && Ends(db, db', lease.taskId, Freed(db.tasks[lease.taskId]).(state := Succeeded, finishedAt := Some(clock.current)),
                          clock.current, AttemptSucceeded, code, bytes))
  {
    hide Fenced, Leased, OpenUnder, Backoff;
    FinishAnswers(cfg, db, worker, lease, Finish(code, Succeeded, bytes, false, None), clock);
  }

  /** `fail` ends the task, except that a transport error with an attempt left puts it off by the backoff. */
  lemma FailExactly(cfg: Config, db: Db, worker: WorkerIdentity, lease: ScrapeLease, code: Code, clock: Clock)
    requires Fenced(db)
    ensures var (db', reply) := Fail(cfg, db, worker, lease, code, clock);
            (reply.Ok? <==> code in {TransportError, ParserError, InvalidTarget, ArtifactUnavailable} && Leased(db, worker, lease, clock))
            && (!reply.Ok? ==> db' == db)
            && (reply.Ok? ==>
                  lease.taskId in db.tasks
                  && var t := db.tasks[lease.taskId];
                     if code == TransportError && t.attemptCount < cfg.queue.maxAttempts
                     then reply.value == Deferred
                          && Ends(db, db', lease.taskId,
                                  Freed(t).(state := Deferred, availableAt := clock.current + Seconds(Backoff(t.attemptCount))),
                                  clock.current, AttemptDeferred, code, 0)
                     else reply.value == Failed
                          && Ends(db, db', lease.taskId, Freed(t).(state := Failed, finishedAt := Some(clock.current)),
                                  clock.current, AttemptFailed, code, 0))
  {
    hide Fenced, Leased, OpenUnder, Backoff;
    FinishAnswers(cfg, db, worker, lease, Finish(code, Failed, 0, code.TransportError?, None), clock);
  }

  /** `defer` makes the task available at the requested time, which lies ahead.  Out of budget it gives the attempt
      back; otherwise the last attempt fails. */
  lemma DeferExactly(cfg: Config, db: Db, worker: WorkerIdentity, lease: ScrapeLease, code: Code, availableAt: Time, clock: Clock)
    requires Fenced(db)
    ensures var (db', reply) := Defer(cfg, db, worker, lease, code, availableAt, clock);
            (reply.Ok? <==> code in {PortalDenied, SourceCooldown, BudgetExhausted} && clock.now < availableAt && Leased(db, worker, lease, clock))
            && (!reply.Ok? ==> db' == db)
            && (reply.Ok? ==>
                  Runs(db, lease.taskId)
                  && var t := db.tasks[lease.taskId];
                     if code == BudgetExhausted
                     then reply.value == Deferred
                          && db' == db.(tasks := db.tasks[lease.taskId := Freed(t).(state := Deferred, availableAt := availableAt,
                                                                                    attemptCount := t.attemptCount - 1)],
                                        attempts := db.attempts - {Newest(db, lease.taskId)}, log := db.log + [Refunded(lease.taskId)])
                     else if t.attemptCount < cfg.queue.maxAttempts
                     then reply.value == Deferred
                          && Ends(db, db', lease.taskId, Freed(t).(state := Deferred, availableAt := availableAt),
                                  clock.current, AttemptDeferred, code, 0)
                     else reply.value == Failed
                          && Ends(db, db', lease.taskId, Freed(t).(state := Failed, finishedAt := Some(clock.current)),
                                  clock.current, AttemptFailed, code, 0))
  {
    hide Fenced, Leased, OpenUnder, Backoff;
    FinishAnswers(cfg, db, worker, lease, Finish(code, Deferred, 0, false, Some(availableAt)), clock);
  }

  /** A retried or deferred task is not claimed before its time: the end of the backoff for a failure, and the requested
      time for a deferral, refunds included. */
  lemma PutOffUntilDue(cfg: Config, before: seq<Step>, ending: Step, after: seq<Step>)
    requires ending.FailStep? || ending.DeferStep?
    requires var db := Run(cfg, EMPTY, before);
             if ending.FailStep? then Fail(cfg, db, ending.worker, ending.lease, ending.code, ending.clock).1 == Ok(Deferred)
             else Defer(cfg, db, ending.worker, ending.lease, ending.code, ending.availableAt, ending.clock).1 == Ok(Deferred)
    requires forall i :: 0 <= i < |after| && after[i].ClaimStep? ==> after[i].now < DueAfter(ending)
    ensures var id := ending.lease.taskId;
            var db := Run(cfg, Apply(cfg, Run(cfg, EMPTY, before), ending), after);
            id in db.tasks && db.tasks[id].state == Deferred && db.tasks[id].availableAt == DueAfter(ending)
  {
    hide Fenced, Apply, Run, Fail, Defer, Settles, Leased, Ends, Backoff;
    ReachableFenced(cfg, before);
    var db := Run(cfg, EMPTY, before);
    EndingStep(cfg, db, ending);
    PutOff(cfg, db, ending);
    StepFenced(cfg, db, ending);
    WaitsUntilDue(cfg, Apply(cfg, db, ending), after, ending.lease.taskId);
  }

  /** When the task may be claimed again.  An accepted lease names its attempt. */
  function DueAfter(ending: Step): Time
    requires ending.FailStep? || ending.DeferStep?
  {
    if ending.FailStep? then ending.clock.current + Seconds(Backoff(ending.lease.attemptNumber)) else ending.availableAt
  }

  lemma EndingStep(cfg: Config, db: Db, ending: Step)
    requires ending.FailStep? || ending.DeferStep?
    ensures Apply(cfg, db, ending)
            == if ending.FailStep? then Fail(cfg, db, ending.worker, ending.lease, ending.code, ending.clock).0
               else Defer(cfg, db, ending.worker, ending.lease, ending.code, ending.availableAt, ending.clock).0
  {
    hide ApplyOutside, ApplyQueue, Fail, Defer;
  }

  lemma PutOff(cfg: Config, db: Db, ending: Step)
    requires Fenced(db) && (ending.FailStep? || ending.DeferStep?)
    requires if ending.FailStep? then Fail(cfg, db, ending.worker, ending.lease, ending.code, ending.clock).1 == Ok(Deferred)
             else Defer(cfg, db, ending.worker, ending.lease, ending.code, ending.availableAt, ending.clock).1 == Ok(Deferred)
    ensures var db' := if ending.FailStep? then Fail(cfg, db, ending.worker, ending.lease, ending.code, ending.clock).0
                       else Defer(cfg, db, ending.worker, ending.lease, ending.code, ending.availableAt, ending.clock).0;
            DeferredTo(db', ending.lease.taskId, DueAfter(ending))
  {
    hide Fenced, Fail, Defer, Leased, Ends, DeferredTo, Backoff;
    if ending.FailStep? {
      FailPutsOff(cfg, db, ending.worker, ending.lease, ending.code, ending.clock);
    } else {
      DeferPutsOff(cfg, db, ending.worker, ending.lease, ending.code, ending.availableAt, ending.clock);
    }
  }

  predicate DeferredTo(db: Db, id: TaskId, due: Time) {
    id in db.tasks && db.tasks[id].state == Deferred && db.tasks[id].availableAt == due
  }

  lemma FailPutsOff(cfg: Config, db: Db, worker: WorkerIdentity, lease: ScrapeLease, code: Code, clock: Clock)
    requires Fenced(db) && Fail(cfg, db, worker, lease, code, clock).1 == Ok(Deferred)
    ensures DeferredTo(Fail(cfg, db, worker, lease, code, clock).0, lease.taskId, clock.current + Seconds(Backoff(lease.attemptNumber)))
  {
    hide Fenced, Fail, Leased, OpenUnder, Backoff;
    FailExactly(cfg, db, worker, lease, code, clock);
    LeasedFacts(db, worker, lease, clock);
  }

  lemma DeferPutsOff(cfg: Config, db: Db, worker: WorkerIdentity, lease: ScrapeLease, code: Code, availableAt: Time, clock: Clock)
    requires Fenced(db) && Defer(cfg, db, worker, lease, code, availableAt, clock).1 == Ok(Deferred)
    ensures DeferredTo(Defer(cfg, db, worker, lease, code, availableAt, clock).0, lease.taskId, availableAt)
  {
    hide Fenced, Defer, Leased, OpenUnder;
    DeferExactly(cfg, db, worker, lease, code, availableAt, clock);
  }

  // ----- who may act under a lease

  /** The task runs, unexpired at `at`, for this worker under this token, and belongs to the worker's portal. */
  predicate HeldBy(db: Db, worker: WorkerIdentity, lease: ScrapeLease, at: Time) {
    lease.taskId in db.tasks
    && var t := db.tasks[lease.taskId];
       t.state == Running && t.source == worker.source && t.leaseOwner == Some(worker.workerId) && t.leaseToken == Some(lease.token)
       && t.leaseExpiresAt.Some? && at < t.leaseExpiresAt.value
  }

  /** The lease is what the claim handed out, but for the expiry. */
  predicate NamesTask(db: Db, lease: ScrapeLease) {
    lease.taskId in db.tasks
    && var t := db.tasks[lease.taskId];
       lease.source == t.source && lease.snapshotId == t.snapshotId && lease.canonicalUrl == t.canonicalUrl && lease.taskClass == t.taskClass
       && lease.releaseHash == t.releaseHash && lease.activationEpoch == t.activationEpoch && lease.attemptNumber == t.attemptCount
  }

  /** The worker is registered for its portal and deployment, and the portal still points at the task's pin. */
  predicate Vouched(db: Db, worker: WorkerIdentity, id: TaskId) {
    worker.workerId in db.workers
    && db.workers[worker.workerId].source == worker.source && db.workers[worker.workerId].deployment == worker.deployment
    && id in db.tasks
    && var t := db.tasks[id];
       t.taskClass == DiscoveryCapture
       || (worker.source in db.pointers && db.pointers[worker.source] == Pointer(t.releaseHash, t.activationEpoch))
  }

  function Readings(step: Step): set<Time>
    requires LeaseStep(step)
  {
    if step.HandoffStep? || step.ReserveStep? || step.OutcomeStep? then {step.now} else {step.clock.now, step.clock.checked}
  }

  lemma LeasedExactly(db: Db, worker: WorkerIdentity, lease: ScrapeLease, clock: Clock)
    ensures Leased(db, worker, lease, clock) <==>
              HeldBy(db, worker, lease, clock.now) && HeldBy(db, worker, lease, clock.checked)
              && NamesTask(db, lease) && Vouched(db, worker, lease.taskId)
  {
  }

  lemma AdmittedExactly(db: Db, worker: WorkerIdentity, lease: ScrapeLease, now: Time)
    requires Fenced(db)
    ensures Admitted(db, worker, lease, now) <==>
              HeldBy(db, worker, lease, now) && Vouched(db, worker, lease.taskId)
              && var t := db.tasks[lease.taskId];
                 lease.snapshotId == t.snapshotId && lease.releaseHash == t.releaseHash && lease.activationEpoch == t.activationEpoch
  {
    hide Fenced, AttemptOf;
    if HeldBy(db, worker, lease, now) {
      TokenFindsNewest(db, lease.taskId);
    }
  }

  /** A request under a lease changes anything only for the worker that holds it, before its expiry by every reading of
      the clock.  Except for the handoff the worker must be registered and the pin current, and the queue's own
      operations compare the whole lease. */
  lemma OnlyTheHolderActs(cfg: Config, db: Db, step: Step)
    requires Fenced(db) && LeaseStep(step) && Apply(cfg, db, step) != db
    ensures forall at :: at in Readings(step) ==> HeldBy(db, step.worker, step.lease, at)
    ensures !step.HandoffStep? ==> Vouched(db, step.worker, step.lease.taskId)
    ensures !step.HandoffStep? && !step.ReserveStep? && !step.OutcomeStep? ==> NamesTask(db, step.lease)
  {
    hide Fenced, ApplyOutside, ApplyQueue, Leased, Admitted, HeldBy, Vouched, NamesTask;
    if step.HandoffStep? {
      HandoffHolder(cfg, db, step);
    } else if step.ReserveStep? || step.OutcomeStep? {
      BudgetHolder(cfg, db, step);
      AdmittedExactly(db, step.worker, step.lease, step.now);
    } else {
      QueueHolder(cfg, db, step);
      LeasedExactly(db, step.worker, step.lease, step.clock);
    }
  }

  lemma HandoffHolder(cfg: Config, db: Db, step: Step)
    requires step.HandoffStep? && Apply(cfg, db, step) != db
    ensures HeldBy(db, step.worker, step.lease, step.now)
  {
    hide ApplyOutside, ApplyQueue, Redirects.EndLease;
  }

  lemma BudgetHolder(cfg: Config, db: Db, step: Step)
    requires (step.ReserveStep? || step.OutcomeStep?) && Apply(cfg, db, step) != db
    ensures Admitted(db, step.worker, step.lease, step.now)
  {
    hide ApplyOutside, ApplyQueue, Admitted, AttemptOf, SourceStateAt, MayStart, Grant, Observe, Decide, Overruns, Uncharged, TouchSource, Refusal;
  }

  lemma QueueHolder(cfg: Config, db: Db, step: Step)
    requires LeaseStep(step) && !step.HandoffStep? && !step.ReserveStep? && !step.OutcomeStep? && Apply(cfg, db, step) != db
    ensures Leased(db, step.worker, step.lease, step.clock)
  {
    hide ApplyOutside, ApplyQueue, Leased, RenewLease, RefundAttempt, CloseAttempt, Settled, AcceptCapture, AcceptDiscovery, AcceptReplay,
         SameCompletion, Calendar.TwoYearsAfter, Calendar.Instant;
  }

  // ----- renewals, expiry and admission

  /** A heartbeat is accepted exactly while the capped extension lies ahead, and writes it to row and lease. */
  lemma HeartbeatExactly(cfg: Config, db: Db, worker: WorkerIdentity, lease: ScrapeLease, clock: Clock)
    requires Fenced(db)
    ensures var (db', reply) := Heartbeat(cfg, db, worker, lease, clock);
            (Leased(db, worker, lease, clock) ==> lease.taskId in db.tasks && db.tasks[lease.taskId].leaseStartedAt.Some?)
            && (reply.Ok? <==> Leased(db, worker, lease, clock)
                               && clock.current < db.tasks[lease.taskId].leaseStartedAt.value + Seconds(cfg.queue.maxLeaseSeconds))
            && (!reply.Ok? ==> db' == db)
            && (reply.Ok? ==>
                  lease.taskId in db.tasks
                  && var t := db.tasks[lease.taskId];
                     var expiry := Min(clock.current + Seconds(cfg.queue.leaseSeconds), t.leaseStartedAt.value + Seconds(cfg.queue.maxLeaseSeconds));
                     reply.value == lease.(expiresAt := expiry)
                     && db' == db.(tasks := db.tasks[lease.taskId := t.(leaseExpiresAt := Some(expiry))]))
  {
    hide Fenced, Leased;
    if Leased(db, worker, lease, clock) {
      LeasedFacts(db, worker, lease, clock);
      SoundTask(db, lease.taskId);
    }
  }

  /** A reap that is not cut off by its limit ends exactly the expired leases that nobody has locked; one that is takes
      the first of them.  Each task waits again from now on, or has failed with its last attempt. */
  lemma ReapExactly(cfg: Config, db: Db, rows: seq<TaskId>, limit: int, locked: set<TaskId>, now: Time, id: TaskId)
    requires Fenced(db) && ReapRows(db, now, limit, locked, rows) && id in db.tasks
    ensures id in rows ==>
              db.tasks[id].state == Running && db.tasks[id].leaseExpiresAt.Some? && db.tasks[id].leaseExpiresAt.value <= now && id !in locked
    ensures db.tasks[id].state == Running && db.tasks[id].leaseExpiresAt.Some? && db.tasks[id].leaseExpiresAt.value <= now && id !in locked ==>
              id in rows
              || (|rows| == limit
                  && forall other :: other in rows ==>
                       other in db.tasks && db.tasks[other].leaseExpiresAt.Some?
                       && db.tasks[other].leaseExpiresAt.value <= db.tasks[id].leaseExpiresAt.value)
    ensures |rows| <= limit
    ensures var db' := Reap(cfg, db, RowSet(rows), now);
            id in db'.tasks
            && var t := db.tasks[id];
               if id !in rows then db'.tasks[id] == t
               else Runs(db, id) && Newest(db, id) in db'.attempts
                    && db'.tasks[id] == (if t.attemptCount < cfg.queue.maxAttempts
                                         then Freed(t).(state := Pending, availableAt := now)
                                         else Freed(t).(state := Failed, availableAt := now, finishedAt := Some(now)))
                    && db'.attempts[Newest(db, id)]
                       == db.attempts[Newest(db, id)].(finishedAt := Some(now), outcome := Some(AttemptExpired), code := Some(LeaseExpired))
  {
    hide Fenced, OpenUnder;
    if id in rows {
      NewestAttempt(db, id);
    }
    forall other | other in rows ensures Expired(db, now, other) {
    }
  }

  ghost predicate KeyUsed(db: Db, key: IdempotencyKey) {
    exists id :: id in db.tasks && db.tasks[id].key == key
  }

  lemma KeyTaken(db: Db, key: IdempotencyKey)
    ensures (exists id :: HasKey(db, key, id)) <==> KeyUsed(db, key)
    ensures forall id :: HasKey(db, key, id) ==> id in db.tasks && db.tasks[id].key == key
  {
    if KeyUsed(db, key) {
      var id :| id in db.tasks && db.tasks[id].key == key;
      assert HasKey(db, key, id);
    }
  }

  /** The release and epoch a new task is pinned to: the portal's, or for a discovery the named release in epoch 1. */
  function PinOf(db: Db, source: Portal, taskClass: TaskClass, release: Option<Hash>): Pointer
    requires if taskClass == DiscoveryCapture then release.Some? else source in db.pointers
  {
    if taskClass == DiscoveryCapture then Pointer(release.value, 1) else db.pointers[source]
  }

  function KeyOf(source: Portal, snapshotId: int, url: Url, taskClass: TaskClass, pin: Pointer): IdempotencyKey {
    if taskClass == Live then LiveKey(source, snapshotId, url) else PinnedKey(source, snapshotId, url, taskClass, pin.releaseHash, pin.epoch)
  }

  lemma SelectedExactly(db: Db, source: Portal, taskClass: TaskClass, release: Option<Hash>)
    ensures var selected := Selected(db, source, taskClass, release);
            (selected.Some? <==>
               if taskClass == DiscoveryCapture
               then release.Some? && release.value in db.releases && db.releases[release.value].source == source
                    && db.releases[release.value].status != Revoked
               else release.None? && source in db.pointers)
            && (selected.Some? ==> selected.value == PinOf(db, source, taskClass, release))
  {
  }

  /** `enqueue` is accepted exactly for a listing of the portal under an active release, or for a discovery under a named
      release of the portal that is not revoked.  It takes an existing task exactly if one has the same identity, and
      otherwise writes one new row: due at once, or held for a network recovery. */
  lemma EnqueueExactly(db: Db, id: TaskId, source: Portal, snapshotId: int, url: Option<Url>, taskClass: TaskClass, release: Option<Hash>, now: Time)
    requires id !in db.tasks
    ensures var (db', reply) := Enqueue(db, id, source, snapshotId, url, taskClass, release, now);
            (reply.Ok? <==>
               url.Some?
               && if taskClass == DiscoveryCapture
                  then release.Some? && release.value in db.releases && db.releases[release.value].source == source
                       && db.releases[release.value].status != Revoked
                  else release.None? && source in db.pointers)
            && (!reply.Ok? ==> db' == db)
            && (reply.Ok? ==>
                  var pin := PinOf(db, source, taskClass, release);
                  var key := KeyOf(source, snapshotId, url.value, taskClass, pin);
                  if KeyUsed(db, key) then db' == db && reply.value in db.tasks && db.tasks[reply.value].key == key
                  else reply.value == id
                       && db' == db.(tasks := db.tasks[id :=
                            Task(source, snapshotId, url.value, taskClass, pin.releaseHash, pin.epoch, key,
                                 if taskClass == NetworkRecovery then Held else Pending, Priority(taskClass), now, now, 0,
                                 None, None, None, None, None, false, None)]))
  {
    hide Selected, HasKey, KeyUsed, Priority, PinOf;
    SelectedExactly(db, source, taskClass, release);
    var selected := Selected(db, source, taskClass, release);
    if selected.Some? && url.Some? {
      KeyTaken(db, KeyOf(source, snapshotId, url.value, taskClass, selected.value));
    }
  }

  /** A replay is planned exactly for the portal's current pin, from a result of another release whose capture is still
      there, and once for the capture's content under that release.  It carries the result's capture and expiry. */
  lemma PlanExactly(db: Db, id: TaskId, source: Portal, release: Hash, epoch: int, origin: TaskId, url: Url, now: Time)
    requires id !in db.tasks
    ensures var (db', reply) := PlanReplay(db, id, source, release, epoch, origin, url, now);
            (reply.Ok? <==>
               source in db.pointers && db.pointers[source] == Pointer(release, epoch)
               && origin in db.results && db.results[origin].captureId in db.captures && db.results[origin].releaseHash != release
               && !KeyUsed(db, ReplayKey(source, db.captures[db.results[origin].captureId].contentHash, release)))
            && (!reply.Ok? ==> db' == db)
            && (reply.Ok? ==>
                  reply.value == id && origin in db.results && db.results[origin].captureId in db.captures
                  && var r, capture := db.results[origin], db.captures[db.results[origin].captureId];
                     db' == db.(tasks := db.tasks[id :=
                                  Task(source, capture.snapshotId, url, ArtifactRecovery, release, epoch,
                                       ReplayKey(source, capture.contentHash, release), Pending, Priority(ArtifactRecovery), now, now, 0,
                                       None, None, None, None, None, false, None)],
                                bindings := db.bindings[id := Binding(r.captureId, capture.fetchedAt, r.expiresAt)]))
  {
    hide HasKey, KeyUsed, Priority;
    if origin in db.results && db.results[origin].captureId in db.captures {
      KeyTaken(db, ReplayKey(source, db.captures[db.results[origin].captureId].contentHash, release));
    }
  }

  // ----- one live task for a listing

  /** A live task is named by its listing, whatever release it is pinned to. */
  predicate Named(t: Task) {
    t.taskClass == Live ==> t.key == LiveKey(t.source, t.snapshotId, t.canonicalUrl)
  }

  ghost predicate LiveTasksNamed(db: Db) {
    forall id :: id in db.tasks ==> Named(db.tasks[id])
  }

  lemma RowKeepsIdentity(cfg: Config, c: Change, id: TaskId, t: Task)
    ensures var t' := NextRow(cfg, c, id, t);
            t'.source == t.source && t'.snapshotId == t.snapshotId && t'.canonicalUrl == t.canonicalUrl && t'.taskClass == t.taskClass
            && t'.key == t.key
  {
    hide Settled;
  }

  /** A new row comes from `enqueue`, or is planned as a replay. */
  lemma NewRowNamed(cfg: Config, db: Db, step: Step, c: Change, id: TaskId)
    requires Permitted(cfg, db, c) && Traces(step, c) && (c.TaskAdded? || c.ReplayAdded?) && id == c.id
    requires id !in db.tasks && id in Apply(cfg, db, step).tasks && Apply(cfg, db, step).tasks[id] == c.task
    ensures Named(c.task)
  {
    if c.TaskAdded? {
      EnqueuedRow(cfg, db, step);
    } else {
      hide Apply, NewKey;
    }
  }

  lemma EnqueuedRow(cfg: Config, db: Db, step: Step)
    requires step.EnqueueStep? && step.id !in db.tasks
    ensures step.id in Apply(cfg, db, step).tasks ==> Named(Apply(cfg, db, step).tasks[step.id])
  {
    hide ApplyLease, ApplyOutside, Enqueue, Selected;
    EnqueueExactly(db, step.id, step.source, step.snapshotId, step.url, step.taskClass, step.release, step.now);
  }

  lemma StepNames(cfg: Config, db: Db, step: Step)
    requires Fenced(db) && LiveTasksNamed(db)
    ensures LiveTasksNamed(Apply(cfg, db, step))
  {
    hide Fenced, Apply, Permitted, Commit, NextRow, Traces;
    var c := StepCommits(cfg, db, step);
    ChangeEffect(cfg, db, c);
    var db' := Apply(cfg, db, step);
    forall id | id in db'.tasks ensures Named(db'.tasks[id]) {
      if id in db.tasks {
        RowKeepsIdentity(cfg, c, id, db.tasks[id]);
      } else {
        NewRowNamed(cfg, db, step, c, id);
      }
    }
  }

  lemma {:induction false} RunNames(cfg: Config, steps: seq<Step>)
    ensures LiveTasksNamed(Run(cfg, EMPTY, steps))
    decreases |steps|
  {
    hide Apply, Named;
    if steps != [] {
      RunNames(cfg, steps[..|steps| - 1]);
      ReachableFenced(cfg, steps[..|steps| - 1]);
      StepNames(cfg, Run(cfg, EMPTY, steps[..|steps| - 1]), steps[|steps| - 1]);
    }
  }

  /** No run ever holds two live tasks for one listing of a snapshot, whatever releases they were admitted under. */
  lemma OneLiveTaskPerListing(cfg: Config, steps: seq<Step>, a: TaskId, b: TaskId)
    requires var db := Run(cfg, EMPTY, steps);
             a in db.tasks && b in db.tasks && db.tasks[a].taskClass == Live && db.tasks[b].taskClass == Live
             && db.tasks[a].source == db.tasks[b].source && db.tasks[a].snapshotId == db.tasks[b].snapshotId
             && db.tasks[a].canonicalUrl == db.tasks[b].canonicalUrl
    ensures a == b
  {
    hide Run, Fenced;
    RunNames(cfg, steps);
    Persistence.KeysStayUnique(cfg, steps);
    var db := Run(cfg, EMPTY, steps);
    assert Named(db.tasks[a]) && Named(db.tasks[b]);
  }
}
