/** Attempt limits, lease lifetimes, and the one way a task can be stranded. */
module Bounds {
  import opened Options
  import opened Contracts
  import opened ScrapeQueue
  import opened SourceBudget
  import opened DenialPolicy
  import opened Coordinator
  import opened Fencing
  import opened Changes
  import opened Effects
  import opened Fence
  import opened LeaseLife

  // ----- counting claims and refunds in the history

  function Claims(log: seq<Event>, id: TaskId): nat {
    if log == [] then 0
    else Claims(log[..|log| - 1], id) + if log[|log| - 1].Claimed? && log[|log| - 1].task == id then 1 else 0
  }

  function Refunds(log: seq<Event>, id: TaskId): nat {
    if log == [] then 0
    else Refunds(log[..|log| - 1], id) + if log[|log| - 1].Refunded? && log[|log| - 1].task == id then 1 else 0
  }

  lemma CountAppend(log: seq<Event>, more: seq<Event>, id: TaskId)
    requires |more| <= 1
    ensures Claims(log + more, id) == Claims(log, id) + if |more| == 1 && more[0].Claimed? && more[0].task == id then 1 else 0
    ensures Refunds(log + more, id) == Refunds(log, id) + if |more| == 1 && more[0].Refunded? && more[0].task == id then 1 else 0
  {
    if |more| == 1 {
      assert (log + more)[..|log|] == log;
    } else {
      assert log + more == log;
    }
  }

  // ----- the invariant

  /** The attempt limit is used up, yet the row waits to be claimed: it never can be. */
  predicate Stranded(queue: QueuePolicy, t: Task) {
    (t.state.Pending? || t.state.Deferred?) && t.attemptCount >= queue.maxAttempts
  }

  predicate RowBounded(queue: QueuePolicy, t: Task) {
    0 <= t.attemptCount <= queue.maxAttempts
    && (t.state.Held? ==> t.attemptCount == 0)
    && (t.state.Running? ==>
          t.attemptCount >= 1 && t.leaseStartedAt.Some? && t.leaseExpiresAt.Some?
          && t.leaseExpiresAt.value <= t.leaseStartedAt.value + Seconds(queue.maxLeaseSeconds))
    && (Stranded(queue, t) ==> t.state.Deferred? && t.fallbackPending)
  }

  function AttemptCount(db: Db, id: TaskId): int {
    if id in db.tasks then db.tasks[id].attemptCount else 0
  }

  ghost predicate Bounded(cfg: Config, db: Db) {
    (forall id :: id in db.tasks ==> RowBounded(cfg.queue, db.tasks[id]))
    && (forall id :: Claims(db.log, id) - Refunds(db.log, id) == AttemptCount(db, id))
  }

  lemma SettledBounded(queue: QueuePolicy, t: Task, f: Finish, at: Time)
    requires RowBounded(queue, t) && t.state.Running? && !f.state.Running? && !f.state.Held? && !f.state.Pending?
    ensures RowBounded(queue, FinishedTask(queue, t, f, at)) && !Stranded(queue, FinishedTask(queue, t, f, at))
    ensures FinishedTask(queue, t, f, at).attemptCount == t.attemptCount
  {
    hide Backoff;
  }

  /** The next row is within its limits, and only a fallback on the last attempt strands it. */
  predicate StaysBounded(queue: QueuePolicy, c: Change, id: TaskId, t: Task, t': Task) {
    RowBounded(queue, t')
    && (if Stranded(queue, t) then t' == t
        else Stranded(queue, t') <==>
               c.OutcomeObserved? && c.id == id && c.decision.retryDirectAt.Some? && t.attemptCount == queue.maxAttempts)
  }

  lemma QueueRowBounded(cfg: Config, db: Db, c: Change, id: TaskId)
    requires Permitted(cfg, db, c) && Queueing(c) && id in db.tasks && RowBounded(cfg.queue, db.tasks[id])
    ensures StaysBounded(cfg.queue, c, id, db.tasks[id], NextRow(cfg, c, id, db.tasks[id]))
  {
    hide Permitted, Commit, QueueCommit, Blank, NewKey;
    QueueCommits(cfg, db, c);
  }

  lemma LeaseRowBounded(cfg: Config, db: Db, c: Change, id: TaskId)
    requires Permitted(cfg, db, c) && Holding(c) && id in db.tasks && RowBounded(cfg.queue, db.tasks[id])
    ensures StaysBounded(cfg.queue, c, id, db.tasks[id], NextRow(cfg, c, id, db.tasks[id]))
  {
    hide QueuePermitted, EndPermitted, BudgetPermitted, RegistryPermitted, Commit, FinishedTask, Current, OpenUnder;
    if c.AttemptClosed? && c.id == id {
      SettledBounded(cfg.queue, db.tasks[id], c.finish, c.at);
    }
  }

  lemma EndRowBounded(cfg: Config, db: Db, c: Change, id: TaskId)
    requires Permitted(cfg, db, c) && Finishing(c) && id in db.tasks && RowBounded(cfg.queue, db.tasks[id])
    ensures StaysBounded(cfg.queue, c, id, db.tasks[id], NextRow(cfg, c, id, db.tasks[id]))
  {
    hide Permitted, Commit, EndCommit, OpenUnder;
    EndCommits(cfg, db, c);
  }

  lemma BudgetRowBounded(cfg: Config, db: Db, c: Change, id: TaskId)
    requires Permitted(cfg, db, c) && Budgeting(c) && id in db.tasks && RowBounded(cfg.queue, db.tasks[id])
    ensures StaysBounded(cfg.queue, c, id, db.tasks[id], NextRow(cfg, c, id, db.tasks[id]))
  {
    hide Permitted, Commit, BudgetCommit, OpenUnder;
    BudgetCommits(cfg, db, c);
  }

  lemma NextRowBounded(cfg: Config, db: Db, c: Change, id: TaskId)
    requires Permitted(cfg, db, c) && id in db.tasks && RowBounded(cfg.queue, db.tasks[id])
    ensures StaysBounded(cfg.queue, c, id, db.tasks[id], NextRow(cfg, c, id, db.tasks[id]))
  {
    hide Permitted, Commit;
    if Queueing(c) {
      QueueRowBounded(cfg, db, c, id);
    } else if Holding(c) {
      LeaseRowBounded(cfg, db, c, id);
    } else if Finishing(c) {
      EndRowBounded(cfg, db, c, id);
    } else if Budgeting(c) {
      BudgetRowBounded(cfg, db, c, id);
    }
  }

  /** What a change adds to the row's count is what it adds to the history's. */
  lemma NextCount(cfg: Config, db: Db, c: Change, id: TaskId)
    requires Permitted(cfg, db, c) && id in db.tasks
    ensures |Events(cfg, db, c)| <= 1
    ensures Claims(db.log + Events(cfg, db, c), id) - Refunds(db.log + Events(cfg, db, c), id)
            == Claims(db.log, id) - Refunds(db.log, id) + NextRow(cfg, c, id, db.tasks[id]).attemptCount - db.tasks[id].attemptCount
  {
    hide Permitted, Grant, Settled, Claims, Refunds;
    CountAppend(db.log, Events(cfg, db, c), id);
  }

  lemma OtherCount(cfg: Config, db: Db, c: Change, id: TaskId)
    requires Permitted(cfg, db, c) && id !in db.tasks
    ensures Claims(db.log + Events(cfg, db, c), id) == Claims(db.log, id)
    ensures Refunds(db.log + Events(cfg, db, c), id) == Refunds(db.log, id)
  {
    hide RegistryPermitted, Current, OpenUnder, MayStart, Overruns, Uncharged, Decide, NewKey, Grant, Claims, Refunds;
    CountAppend(db.log, Events(cfg, db, c), id);
  }

  lemma AddedBounded(cfg: Config, db: Db, c: Change)
    requires Permitted(cfg, db, c) && (c.TaskAdded? || c.ReplayAdded?)
    ensures RowBounded(cfg.queue, c.task) && c.task.attemptCount == 0 && c.id !in db.tasks
  {
  }

  lemma ChangeBounded(cfg: Config, db: Db, c: Change)
    requires Bounded(cfg, db) && Permitted(cfg, db, c)
    ensures Bounded(cfg, Commit(cfg, db, c))
  {
    hide Permitted, Commit, NextRow, Events, RowBounded, Claims, Refunds;
    var db' := Commit(cfg, db, c);
    ChangeEffect(cfg, db, c);
    if c.TaskAdded? || c.ReplayAdded? {
      AddedBounded(cfg, db, c);
    }
    forall id | id in db'.tasks ensures RowBounded(cfg.queue, db'.tasks[id]) {
      if id in db.tasks {
        NextRowBounded(cfg, db, c, id);
      }
    }
    forall id ensures Claims(db'.log, id) - Refunds(db'.log, id) == AttemptCount(db', id) {
      if id in db.tasks {
        NextCount(cfg, db, c, id);
      } else {
        OtherCount(cfg, db, c, id);
      }
    }
  }

  lemma {:induction false} RunBounded(cfg: Config, steps: seq<Step>)
    ensures Fenced(Run(cfg, EMPTY, steps)) && Bounded(cfg, Run(cfg, EMPTY, steps))
    decreases |steps|
  {
    hide Fenced, Bounded, Apply, Permitted, Commit;
    if steps == [] {
      EmptyFenced();
      EmptyBounded(cfg);
    } else {
      var n := |steps| - 1;
      RunBounded(cfg, steps[..n]);
      var db := Run(cfg, EMPTY, steps[..n]);
      var c := StepCommits(cfg, db, steps[n]);
      ChangeBounded(cfg, db, c);
      ChangeFenced(cfg, db, c);
    }
  }

  lemma EmptyBounded(cfg: Config)
    ensures Bounded(cfg, EMPTY)
  {
  }

  // ----- what it means for whole runs

  /** Every run claims a task at most `maxAttempts` times more often than its budget refunds. */
  lemma ClaimsBounded(cfg: Config, steps: seq<Step>, id: TaskId)
    ensures var db := Run(cfg, EMPTY, steps);
            Claims(db.log, id) <= cfg.queue.maxAttempts + Refunds(db.log, id)
            && (id in db.tasks ==> db.tasks[id].attemptCount == Claims(db.log, id) - Refunds(db.log, id) <= cfg.queue.maxAttempts)
  {
    hide Claims, Refunds;
    RunBounded(cfg, steps);
    var db := Run(cfg, EMPTY, steps);
    if id in db.tasks {
      assert RowBounded(cfg.queue, db.tasks[id]);
    }
  }

  /** A lease never outlives its start by more than the maximum, however often it is renewed. */
  lemma LeaseLifetime(cfg: Config, steps: seq<Step>, id: TaskId)
    requires id in Run(cfg, EMPTY, steps).tasks && Run(cfg, EMPTY, steps).tasks[id].state.Running?
    ensures var t := Run(cfg, EMPTY, steps).tasks[id];
            t.leaseStartedAt.Some? && t.leaseExpiresAt.Some?
            && t.leaseExpiresAt.value <= t.leaseStartedAt.value + Seconds(cfg.queue.maxLeaseSeconds)
  {
    RunBounded(cfg, steps);
    assert RowBounded(cfg.queue, Run(cfg, EMPTY, steps).tasks[id]);
  }

  /** An accepted deferral fails the task on its last attempt and only then, unless it refunds the attempt; an
      accepted failure is put off exactly for a transport error with an attempt left.  Either way the row says
      what the reply says. */
  lemma LastAttemptDecides(cfg: Config, steps: seq<Step>, worker: WorkerIdentity, lease: ScrapeLease, code: Code, availableAt: Time, clock: Clock)
    ensures var (db', reply) := Defer(cfg, Run(cfg, EMPTY, steps), worker, lease, code, availableAt, clock);
            reply.Ok? ==>
              (reply.value == if lease.attemptNumber == cfg.queue.maxAttempts && !code.BudgetExhausted? then Failed else Deferred)
              && lease.taskId in db'.tasks && db'.tasks[lease.taskId].state == reply.value
    ensures var (db', reply) := Fail(cfg, Run(cfg, EMPTY, steps), worker, lease, code, clock);
            reply.Ok? ==>
              (reply.value == if lease.attemptNumber < cfg.queue.maxAttempts && code.TransportError? then Deferred else Failed)
              && lease.taskId in db'.tasks && db'.tasks[lease.taskId].state == reply.value
  {
    hide Fenced, Bounded, Apply, FinishLease, Settled;
    RunBounded(cfg, steps);
    var db := Run(cfg, EMPTY, steps);
    FinishReply(cfg, db, worker, lease, Finish(code, Deferred, 0, false, Some(availableAt)), clock);
    FinishReply(cfg, db, worker, lease, Finish(code, Failed, 0, code.TransportError?, None), clock);
    if lease.taskId in db.tasks {
      RowOf(cfg, db, lease.taskId);
      SettledState(cfg.queue, db.tasks[lease.taskId], Finish(code, Deferred, 0, false, Some(availableAt)), clock.current);
      SettledState(cfg.queue, db.tasks[lease.taskId], Finish(code, Failed, 0, code.TransportError?, None), clock.current);
    }
  }

  lemma FinishReply(cfg: Config, db: Db, worker: WorkerIdentity, lease: ScrapeLease, f: Finish, clock: Clock)
    ensures var (db', reply) := FinishLease(cfg, db, worker, lease, f, clock);
            reply.Ok? ==>
              lease.taskId in db.tasks && db.tasks[lease.taskId].attemptCount == lease.attemptNumber
              && reply.value == (if f.code.BudgetExhausted? then Deferred else Settled(cfg.queue, db.tasks[lease.taskId], f, clock.current).0)
              && lease.taskId in db'.tasks && db'.tasks[lease.taskId].state == reply.value
  {
    hide Settled, Leased, CloseAttempt, RefundAttempt;
    if Leased(db, worker, lease, clock) {
      LeasedRow(db, worker, lease, clock);
      var k := Newest(db, lease.taskId);
      if k in db.attempts {
        WrittenState(cfg, db, lease.taskId, k, f, clock.current);
      }
    }
  }

  lemma LeasedRow(db: Db, worker: WorkerIdentity, lease: ScrapeLease, clock: Clock)
    requires Leased(db, worker, lease, clock)
    ensures lease.taskId in db.tasks && db.tasks[lease.taskId].attemptCount == lease.attemptNumber
  {
  }

  lemma WrittenState(cfg: Config, db: Db, id: TaskId, k: AttemptKey, f: Finish, at: Time)
    requires id in db.tasks && k in db.attempts
    ensures var closed, refunded := CloseAttempt(cfg, db, id, k, f, at), RefundAttempt(db, id, k, f.availableAt);
            id in closed.tasks && closed.tasks[id].state == Settled(cfg.queue, db.tasks[id], f, at).0
            && id in refunded.tasks && refunded.tasks[id].state.Deferred?
  {
    hide Settled, ClosedAttempt, OutcomeOf;
  }

  lemma SettledState(queue: QueuePolicy, t: Task, f: Finish, at: Time)
    requires RowBounded(queue, t) && (f.state.Deferred? || f.state.Failed?)
    ensures Settled(queue, t, f, at).0 ==
              if t.attemptCount == queue.maxAttempts then Failed else if f.retry then Deferred else f.state
  {
    hide Backoff;
  }

  predicate StrandedIn(cfg: Config, db: Db, id: TaskId) {
    id in db.tasks && Stranded(cfg.queue, db.tasks[id])
  }

  /** The step reports a failure of the proxy route that `record_outcome` accepts, on the task's last attempt.
      Everything here can be read before the call. */
  ghost predicate FallbackOnLastAttempt(cfg: Config, db: Db, step: Step, id: TaskId) {
    step.OutcomeStep? && step.lease.taskId == id && id in db.tasks && db.tasks[id].attemptCount == cfg.queue.maxAttempts
    && step.permit.route.Proxy? && (step.classification.PortalDenial? || step.classification.ProxyInfrastructureFailure?)
    && OutcomeAllowed(cfg, db, step.worker, step.lease, step.permit, step.bytes, step.retryAfter, step.now)
  }

  /** The direct-fallback deferral does not test the attempt limit, as finishing and reaping do.  A step
      strands a waiting task exactly when it is that deferral on the task's last attempt. */
  lemma StrandsExactlyOnLastFallback(cfg: Config, before: seq<Step>, step: Step, id: TaskId)
    requires !StrandedIn(cfg, Run(cfg, EMPTY, before), id)
    ensures StrandedIn(cfg, Apply(cfg, Run(cfg, EMPTY, before), step), id)
            <==> FallbackOnLastAttempt(cfg, Run(cfg, EMPTY, before), step, id)
  {
    hide Fenced, Bounded, Apply, Permitted, Commit, NextRow, RecordOutcome, RowBounded, Stranded, OutcomeAllowed;
    RunBounded(cfg, before);
    var db := Run(cfg, EMPTY, before);
    var c: Change;
    if step.OutcomeStep? {
      c := OutcomeChange(cfg, db, step.worker, step.lease, step.permit, step.classification, step.bytes, step.retryAfter, step.now);
      ApplyOutcome(cfg, db, step);
      FallbackGranted(cfg, db, step);
    } else {
      c := StepCommits(cfg, db, step);
      assert !c.OutcomeObserved?;
    }
    ChangeEffect(cfg, db, c);
    ChangeStrands(cfg, db, c, id);
  }

  lemma ApplyOutcome(cfg: Config, db: Db, step: Step)
    requires step.OutcomeStep?
    ensures Apply(cfg, db, step)
            == RecordOutcome(cfg, db, step.worker, step.lease, step.permit, step.classification, step.bytes, step.retryAfter, step.now).0
  {
    hide RecordOutcome;
  }

  /** A direct retry is granted exactly by an accepted denial or infrastructure failure on the proxy route. */
  lemma FallbackGranted(cfg: Config, db: Db, step: Step)
    requires step.OutcomeStep? && Fenced(db)
    ensures var r := RecordOutcome(cfg, db, step.worker, step.lease, step.permit, step.classification, step.bytes, step.retryAfter, step.now);
            (r.1.Ok? ==> step.lease.taskId in db.tasks) && (!r.1.Ok? ==> r.0 == db)
            && (r.1.Ok? && r.1.value.retryDirectAt.Some? <==>
                  step.permit.route.Proxy? && (step.classification.PortalDenial? || step.classification.ProxyInfrastructureFailure?)
                  && OutcomeAllowed(cfg, db, step.worker, step.lease, step.permit, step.bytes, step.retryAfter, step.now))
  {
    hide Fenced, RecordOutcome, SourceStateAt, Overruns, Admitted;
    OutcomeAcceptedExactly(cfg, db, step.worker, step.lease, step.permit, step.classification, step.bytes, step.retryAfter, step.now);
    if Admitted(db, step.worker, step.lease, step.now) {
      AdmittedRuns(db, step.worker, step.lease, step.now);
    }
  }

  lemma ChangeStrands(cfg: Config, db: Db, c: Change, id: TaskId)
    requires Permitted(cfg, db, c) && Bounded(cfg, db) && !StrandedIn(cfg, db, id)
    requires RowsAre(cfg, db, Commit(cfg, db, c), c)
    ensures StrandedIn(cfg, Commit(cfg, db, c), id) <==>
              id in db.tasks && c.OutcomeObserved? && c.id == id && c.decision.retryDirectAt.Some?
              && db.tasks[id].attemptCount == cfg.queue.maxAttempts
  {
    hide Permitted, Commit, NextRow;
    if id in db.tasks {
      NextRowBounded(cfg, db, c, id);
    } else if c.TaskAdded? || c.ReplayAdded? {
      AddedBounded(cfg, db, c);
    }
  }

  /** Once stranded, always stranded: no later step of any kind touches the row. */
  lemma {:induction false} StrandedForever(cfg: Config, before: seq<Step>, after: seq<Step>, id: TaskId)
    requires StrandedIn(cfg, Run(cfg, EMPTY, before), id)
    ensures id in Run(cfg, EMPTY, before + after).tasks
            && Run(cfg, EMPTY, before + after).tasks[id] == Run(cfg, EMPTY, before).tasks[id]
    decreases |after|
  {
    hide Fenced, Bounded, Apply, Permitted, Commit, NextRow, RowBounded, Stranded;
    if after == [] {
      assert before + after == before;
    } else {
      var n := |after| - 1;
      StrandedForever(cfg, before, after[..n], id);
      var steps := before + after;
      assert steps[..|steps| - 1] == before + after[..n] && steps[|steps| - 1] == after[n];
      RunBounded(cfg, before + after[..n]);
      var db := Run(cfg, EMPTY, before + after[..n]);
      var c := StepCommits(cfg, db, after[n]);
      ChangeEffect(cfg, db, c);
      RowOf(cfg, db, id);
      NextRowBounded(cfg, db, c, id);
    }
  }

  lemma RowOf(cfg: Config, db: Db, id: TaskId)
    requires Bounded(cfg, db) && id in db.tasks
    ensures RowBounded(cfg.queue, db.tasks[id])
  {
  }

  /** As long as no proxy failure is reported on a last attempt, every waiting task stays claimable. */
  lemma {:induction false} WaitingIsClaimable(cfg: Config, steps: seq<Step>)
    requires forall i, id :: 0 <= i < |steps| ==> !FallbackOnLastAttempt(cfg, Run(cfg, EMPTY, steps[..i]), steps[i], id)
    ensures forall id :: !StrandedIn(cfg, Run(cfg, EMPTY, steps), id)
    decreases |steps|
  {
    hide Apply, Stranded, FallbackOnLastAttempt;
    if steps == [] {
    } else {
      var n := |steps| - 1;
      forall i, id | 0 <= i < |steps[..n]| ensures !FallbackOnLastAttempt(cfg, Run(cfg, EMPTY, steps[..n][..i]), steps[..n][i], id) {
        assert steps[..n][..i] == steps[..i];
      }
      WaitingIsClaimable(cfg, steps[..n]);
      forall id ensures !StrandedIn(cfg, Run(cfg, EMPTY, steps), id) {
        StrandsExactlyOnLastFallback(cfg, steps[..n], steps[n], id);
      }
    }
  }

  // ----- renewals under a monotone clock

  /** Every lease expires within `leaseSeconds` of the reading `horizon`. */
  ghost predicate RenewedBy(cfg: Config, db: Db, horizon: Time) {
    forall id :: id in db.tasks && db.tasks[id].state.Running? ==>
      db.tasks[id].leaseExpiresAt.Some? && db.tasks[id].leaseExpiresAt.value <= horizon + Seconds(cfg.queue.leaseSeconds)
  }

  /** The clock a claim or a heartbeat stamps on the lease. */
  function LeaseClock(step: Step): Option<Time> {
    if step.ClaimStep? then Some(step.current)
    else if step.HeartbeatStep? then Some(step.clock.current)
    else None
  }

  predicate ReadBefore(step: Step, horizon: Time) {
    LeaseClock(step).Some? ==> LeaseClock(step).value <= horizon
  }

  lemma NextRowRenewed(cfg: Config, db: Db, step: Step, c: Change, id: TaskId, horizon: Time)
    requires Permitted(cfg, db, c) && id in db.tasks && Traces(step, c) && ReadBefore(step, horizon) && RenewedBy(cfg, db, horizon)
    ensures var t := NextRow(cfg, c, id, db.tasks[id]);
            t.state.Running? ==> t.leaseExpiresAt.Some? && t.leaseExpiresAt.value <= horizon + Seconds(cfg.queue.leaseSeconds)
  {
    hide QueuePermitted, EndPermitted, BudgetPermitted, RegistryPermitted, Commit, FinishedTask, Current, OpenUnder;
    if !Holding(c) {
      NextRowExpiry(cfg, c, id, db.tasks[id]);
    } else if c.AttemptClosed? && c.id == id {
      FinishedRow(cfg.queue, db.tasks[id], c.finish, c.at, db.issued);
    }
  }

  lemma NextRowExpiry(cfg: Config, c: Change, id: TaskId, t: Task)
    requires !Holding(c)
    ensures var t' := NextRow(cfg, c, id, t);
            t'.state.Running? ==> t.state.Running? && t'.leaseExpiresAt == t.leaseExpiresAt
  {
  }

  lemma {:induction false} RunRenewed(cfg: Config, steps: seq<Step>, horizon: Time)
    requires forall i :: 0 <= i < |steps| ==> ReadBefore(steps[i], horizon)
    ensures RenewedBy(cfg, Run(cfg, EMPTY, steps), horizon)
    decreases |steps|
  {
    hide Fenced, Bounded, Apply, Permitted, Commit, NextRow, ReadBefore, Traces;
    if steps != [] {
      var n := |steps| - 1;
      forall i | 0 <= i < n ensures ReadBefore(steps[..n][i], horizon) {
        assert steps[..n][i] == steps[i];
      }
      RunRenewed(cfg, steps[..n], horizon);
      RunBounded(cfg, steps[..n]);
      var db := Run(cfg, EMPTY, steps[..n]);
      var c := StepCommits(cfg, db, steps[n]);
      ChangeEffect(cfg, db, c);
      forall id | id in db.tasks
        ensures var t := NextRow(cfg, c, id, db.tasks[id]);
                t.state.Running? ==> t.leaseExpiresAt.Some? && t.leaseExpiresAt.value <= horizon + Seconds(cfg.queue.leaseSeconds)
      {
        NextRowRenewed(cfg, db, steps[n], c, id, horizon);
      }
      if c.TaskAdded? || c.ReplayAdded? {
        BlankWaits(cfg, db, c);
      }
    }
  }

  lemma BlankWaits(cfg: Config, db: Db, c: Change)
    requires Permitted(cfg, db, c) && (c.TaskAdded? || c.ReplayAdded?)
    ensures !c.task.state.Running?
  {
  }

  /** While the clock does not run backwards, an accepted heartbeat never shortens the lease. */
  lemma HeartbeatNeverShortens(cfg: Config, steps: seq<Step>, worker: WorkerIdentity, lease: ScrapeLease, clock: Clock)
    requires forall i :: 0 <= i < |steps| ==> ReadBefore(steps[i], clock.current)
    requires Heartbeat(cfg, Run(cfg, EMPTY, steps), worker, lease, clock).1.Ok?
    ensures var db := Run(cfg, EMPTY, steps);
            var db' := Heartbeat(cfg, db, worker, lease, clock).0;
            lease.taskId in db.tasks && lease.taskId in db'.tasks
            && db.tasks[lease.taskId].leaseExpiresAt.Some? && db'.tasks[lease.taskId].leaseExpiresAt.Some?
            && db'.tasks[lease.taskId].leaseExpiresAt.value >= db.tasks[lease.taskId].leaseExpiresAt.value
  {
    hide Fenced, ReadBefore, Claims, Refunds;
    RunRenewed(cfg, steps, clock.current);
    RunBounded(cfg, steps);
    RowOf(cfg, Run(cfg, EMPTY, steps), lease.taskId);
  }
}
