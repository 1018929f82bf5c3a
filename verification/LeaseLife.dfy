/** Lease fencing over whole runs: dead tokens stay dead, terminal tasks stay as they are. */
module LeaseLife {
  import opened Options
  import opened Contracts
  import opened ScrapeQueue
  import opened SourceBudget
  import opened Coordinator
  import opened Fencing
  import opened Changes
  import opened Frames
  import opened Effects
  import opened Fence
  import Redirects
  import Calendar

  predicate RunsUnder(db: Db, id: TaskId, token: Token) {
    id in db.tasks && db.tasks[id].state.Running? && db.tasks[id].leaseToken == Some(token)
  }

  ghost predicate Live(db: Db, token: Token) {
    exists id :: RunsUnder(db, id, token)
  }

  /** What no later step can undo. */
  ghost predicate Settles(db: Db, db': Db) {
    db.issued <= db'.issued
    && (forall token :: token in db.issued && !Live(db, token) ==> !Live(db', token))
    && (forall id :: id in db.tasks && Terminal(db.tasks[id].state) ==> id in db'.tasks && db'.tasks[id] == db.tasks[id])
    && (forall k :: k in db.attempts && k.task in db.tasks && Terminal(db.tasks[k.task].state)
          ==> k in db'.attempts && db'.attempts[k] == db.attempts[k])
  }

  lemma StepSettles(db: Db, db': Db)
    requires Advances(db, db')
    ensures Settles(db, db')
  {
    forall token | token in db.issued && !Live(db, token) ensures !Live(db', token) {
      forall id ensures !RunsUnder(db', id, token) {
        if id in db.tasks {
          assert TaskAdvances(db.tasks[id], db'.tasks[id], db.issued);
          assert !RunsUnder(db, id, token);
        }
      }
    }
  }

  /** The fencing invariant and the settled facts survive every interleaving. */
  lemma {:induction false} RunSettles(cfg: Config, db: Db, steps: seq<Step>)
    requires Fenced(db)
    ensures Fenced(Run(cfg, db, steps)) && Settles(db, Run(cfg, db, steps))
    decreases |steps|
  {
    hide Fenced, Apply, Advances;
    if steps != [] {
      var n := |steps| - 1;
      RunSettles(cfg, db, steps[..n]);
      var mid := Run(cfg, db, steps[..n]);
      StepFenced(cfg, mid, steps[n]);
      StepSettles(mid, Apply(cfg, mid, steps[n]));
    }
  }

  lemma EmptyFenced()
    ensures Fenced(EMPTY)
  {
  }

  /** Every reachable database is fenced. */
  lemma ReachableFenced(cfg: Config, steps: seq<Step>)
    ensures Fenced(Run(cfg, EMPTY, steps))
  {
    EmptyFenced();
    RunSettles(cfg, EMPTY, steps);
  }

  /** A request whose task does not run under its token changes nothing, whatever operation it names. */
  lemma DeadLeaseChangesNothing(cfg: Config, db: Db, step: Step)
    requires LeaseStep(step) && !RunsUnder(db, step.lease.taskId, step.lease.token)
    ensures Apply(cfg, db, step) == db
  {
    hide ApplyOutside, ApplyQueue, Complete, CompleteDiscovery, RecordOutcome, ReserveStart, FinishLease, Heartbeat, CompleteReplay,
         Redirects.Handoff;
    match step
    case HeartbeatStep(worker, lease, clock) => DeadHeartbeat(cfg, db, worker, lease, clock);
    case SucceedStep(worker, lease, code, bytes, clock) =>
      DeadFinish(cfg, db, worker, lease, Finish(code, Succeeded, bytes, false, None), clock);
    case FailStep(worker, lease, code, clock) =>
      DeadFinish(cfg, db, worker, lease, Finish(code, Failed, 0, code.TransportError?, None), clock);
    case DeferStep(worker, lease, code, availableAt, clock) =>
      DeadFinish(cfg, db, worker, lease, Finish(code, Deferred, 0, false, Some(availableAt)), clock);
    case CompleteStep(worker, lease, outcome, clock) => DeadComplete(db, worker, lease, outcome, clock);
    case CompleteReplayStep(worker, lease, captureId, releaseHash, content, missing, clock) =>
      DeadReplay(db, worker, lease, captureId, releaseHash, content, missing, clock);
    case HandoffStep(worker, lease, target, listing, id, now) => DeadHandoff(db, worker, lease, target, listing, id, now);
    case ReserveStep(worker, lease, requested, now) => DeadBudget(cfg, db, worker, lease, requested, now);
    case OutcomeStep(worker, lease, permit, c, bytes, retryAfter, now) =>
      DeadOutcome(cfg, db, worker, lease, permit, c, bytes, retryAfter, now);
  }

  lemma DeadLease(db: Db, worker: WorkerIdentity, lease: ScrapeLease, clock: Clock)
    requires !RunsUnder(db, lease.taskId, lease.token)
    ensures !Leased(db, worker, lease, clock)
    ensures !Admitted(db, worker, lease, clock.now)
    ensures !Redirects.HandoffLeased(db, worker, lease, clock.now)
  {
  }

  lemma DeadHeartbeat(cfg: Config, db: Db, worker: WorkerIdentity, lease: ScrapeLease, clock: Clock)
    requires !RunsUnder(db, lease.taskId, lease.token)
    ensures Heartbeat(cfg, db, worker, lease, clock) == (db, LostLease)
  {
    DeadLease(db, worker, lease, clock);
  }

  lemma DeadFinish(cfg: Config, db: Db, worker: WorkerIdentity, lease: ScrapeLease, f: Finish, clock: Clock)
    requires !RunsUnder(db, lease.taskId, lease.token)
    ensures FinishLease(cfg, db, worker, lease, f, clock).0 == db && !FinishLease(cfg, db, worker, lease, f, clock).1.Ok?
  {
    DeadLease(db, worker, lease, clock);
  }

  lemma DeadComplete(db: Db, worker: WorkerIdentity, lease: ScrapeLease, outcome: CaptureOutcome, clock: Clock)
    requires !RunsUnder(db, lease.taskId, lease.token)
    ensures Complete(db, worker, lease, outcome, clock).0 == db
    ensures outcome.artifactId.Some? ==> CompleteDiscovery(db, worker, lease, outcome, clock).0 == db
  {
    DeadLease(db, worker, lease, clock);
  }

  lemma DeadReplay(db: Db, worker: WorkerIdentity, lease: ScrapeLease, captureId: CaptureId, releaseHash: Hash,
                   content: string, missing: bool, clock: Clock)
    requires !RunsUnder(db, lease.taskId, lease.token)
    ensures CompleteReplay(db, worker, lease, captureId, releaseHash, content, missing, clock).0 == db
    ensures !CompleteReplay(db, worker, lease, captureId, releaseHash, content, missing, clock).1.Ok?
  {
    DeadLease(db, worker, lease, clock);
  }

  lemma DeadHandoff(db: Db, worker: WorkerIdentity, lease: ScrapeLease, target: Portal, listing: Option<string>, id: int, now: Time)
    requires !RunsUnder(db, lease.taskId, lease.token)
    ensures Redirects.Handoff(db, worker, lease, target, listing, id, now).0 == db
  {
    DeadLease(db, worker, lease, Clock(now, now, now));
  }

  lemma DeadBudget(cfg: Config, db: Db, worker: WorkerIdentity, lease: ScrapeLease, requested: int, now: Time)
    requires !RunsUnder(db, lease.taskId, lease.token)
    ensures ReserveStart(cfg, db, worker, lease, requested, now).0 == db
    ensures !ReserveStart(cfg, db, worker, lease, requested, now).1.Ok?
  {
    DeadLease(db, worker, lease, Clock(now, now, now));
  }

  lemma DeadOutcome(cfg: Config, db: Db, worker: WorkerIdentity, lease: ScrapeLease, permit: NetworkPermit,
                    c: Classification, bytes: int, retryAfter: Option<int>, now: Time)
    requires !RunsUnder(db, lease.taskId, lease.token)
    ensures RecordOutcome(cfg, db, worker, lease, permit, c, bytes, retryAfter, now).0 == db
    ensures !RecordOutcome(cfg, db, worker, lease, permit, c, bytes, retryAfter, now).1.Ok?
  {
    DeadLease(db, worker, lease, Clock(now, now, now));
  }

  lemma OneTaskPerToken(db: Db, id: TaskId, other: TaskId, token: Token)
    requires Fenced(db) && RunsUnder(db, id, token) && other != id
    ensures !RunsUnder(db, other, token)
  {
    NewestAttempt(db, id);
    if RunsUnder(db, other, token) {
      NewestAttempt(db, other);
    }
  }

  /** A step after which the task no longer runs under its token kills the token. */
  lemma EndedLeaseIsDead(cfg: Config, db: Db, step: Step, id: TaskId, token: Token)
    requires Fenced(db) && RunsUnder(db, id, token) && !RunsUnder(Apply(cfg, db, step), id, token)
    ensures token in Apply(cfg, db, step).issued && !Live(Apply(cfg, db, step), token)
  {
    hide Apply;
    var db' := Apply(cfg, db, step);
    StepFenced(cfg, db, step);
    NewestAttempt(db, id);
    var k := AttemptKey(id, db.tasks[id].attemptCount);
    assert AttemptSound(db, k);
    forall other ensures !RunsUnder(db', other, token) {
      if other != id && other in db.tasks {
        assert TaskAdvances(db.tasks[other], db'.tasks[other], db.issued);
        OneTaskPerToken(db, id, other, token);
      }
    }
  }

  /** The operations that end a lease when they are accepted. */
  predicate Ending(step: Step) {
    step.SucceedStep? || step.FailStep? || step.DeferStep? || step.CompleteStep? || step.CompleteReplayStep? || step.HandoffStep?
  }

  /** Whatever way a lease is ended, as success, failure, deferral, refund, completion or handoff: if the request
      changes anything, its token is dead afterwards. */
  lemma EndingKillsTheToken(cfg: Config, db: Db, step: Step)
    requires Fenced(db) && Ending(step) && Apply(cfg, db, step) != db
    ensures !Live(Apply(cfg, db, step), step.lease.token)
  {
    hide Apply, Fenced, Permitted, Commit, NextRow, Live;
    if !RunsUnder(db, step.lease.taskId, step.lease.token) {
      DeadLeaseChangesNothing(cfg, db, step);
    }
    var c := StepCommits(cfg, db, step);
    NothingCommits(cfg, db, c);
    EndingChange(step, c);
    ChangeEffect(cfg, db, c);
    EndedRow(cfg, db, c);
    EndedLeaseIsDead(cfg, db, step, step.lease.taskId, step.lease.token);
  }

  predicate EndsLease(c: Change) {
    c.AttemptRefunded? || c.AttemptClosed? || Completing(c) || c.HandedOff?
  }

  lemma EndingChange(step: Step, c: Change)
    requires Ending(step) && Traces(step, c) && !c.Nothing?
    ensures EndsLease(c) && c.id == step.lease.taskId
  {
  }

  lemma NothingCommits(cfg: Config, db: Db, c: Change)
    requires Permitted(cfg, db, c) && Commit(cfg, db, c) != db
    ensures !c.Nothing?
  {
    hide Permitted;
  }

  lemma EndedRow(cfg: Config, db: Db, c: Change)
    requires Permitted(cfg, db, c) && EndsLease(c)
    ensures c.id in db.tasks && !NextRow(cfg, c, c.id, db.tasks[c.id]).state.Running?
  {
    hide Current, OpenUnder, FinishedTask, Calendar.TwoYearsAfter;
    if c.AttemptClosed? {
      FinishedRow(cfg.queue, db.tasks[c.id], c.finish, c.at, db.issued);
    }
  }

  /** The fence: once any step ends a lease, nothing presented under its token is ever accepted again,
      after any further steps, by any worker, for any task and operation. */
  lemma ClearedTokenNeverAccepted(cfg: Config, before: seq<Step>, ending: Step, after: seq<Step>, late: Step, id: TaskId, token: Token)
    requires RunsUnder(Run(cfg, EMPTY, before), id, token)
    requires !RunsUnder(Apply(cfg, Run(cfg, EMPTY, before), ending), id, token)
    requires LeaseStep(late) && late.lease.token == token
    ensures var end := Run(cfg, Apply(cfg, Run(cfg, EMPTY, before), ending), after);
            Apply(cfg, end, late) == end
  {
    hide Apply, Fenced, Advances;
    ReachableFenced(cfg, before);
    var db := Run(cfg, EMPTY, before);
    StepFenced(cfg, db, ending);
    EndedLeaseIsDead(cfg, db, ending, id, token);
    RunSettles(cfg, Apply(cfg, db, ending), after);
    DeadLeaseChangesNothing(cfg, Run(cfg, Apply(cfg, db, ending), after), late);
  }

  /** Succeeded and failed tasks are final: no interleaving touches their rows or attempts again. */
  lemma TerminalIsFinal(cfg: Config, before: seq<Step>, after: seq<Step>, id: TaskId)
    requires id in Run(cfg, EMPTY, before).tasks && Terminal(Run(cfg, EMPTY, before).tasks[id].state)
    ensures var db := Run(cfg, EMPTY, before);
            var end := Run(cfg, EMPTY, before + after);
            id in end.tasks && end.tasks[id] == db.tasks[id]
            && forall k :: k in db.attempts && k.task == id ==> k in end.attempts && end.attempts[k] == db.attempts[k]
  {
    hide Apply, Fenced;
    ReachableFenced(cfg, before);
    RunSettles(cfg, Run(cfg, EMPTY, before), after);
    RunConcat(cfg, EMPTY, before, after);
  }

  // ----- the claim query

  /** The claim query has exactly one answer. */
  lemma ClaimRowUnique(cfg: Config, db: Db, worker: WorkerIdentity, classes: set<TaskClass>, locked: set<TaskId>, now: Time)
    ensures exists pick :: ClaimRow(cfg, db, worker, classes, locked, now, pick)
    ensures forall p, q :: ClaimRow(cfg, db, worker, classes, locked, now, p) && ClaimRow(cfg, db, worker, classes, locked, now, q) ==> p == q
  {
    var candidates := set id | id in db.tasks && ClaimCandidate(cfg, db, worker, classes, locked, now, id);
    if candidates == {} {
      assert forall id :: ClaimCandidate(cfg, db, worker, classes, locked, now, id) ==> id in candidates;
      assert ClaimRow(cfg, db, worker, classes, locked, now, None);
    } else {
      var first := FirstClaim(db, candidates);
      assert ClaimRow(cfg, db, worker, classes, locked, now, Some(first));
    }
  }

  lemma {:induction false} FirstClaim(db: Db, ids: set<TaskId>) returns (first: TaskId)
    requires ids != {} && forall id :: id in ids ==> id in db.tasks
    ensures first in ids && forall id :: id in ids && id != first ==> ClaimBefore(db, first, id)
    decreases |ids|
  {
    assert (forall id :: id !in ids) ==> ids == {};
    first :| first in ids;
    var rest := ids - {first};
    if rest != {} {
      var other := FirstClaim(db, rest);
      forall id | id in ids ensures ClaimBefore(db, first, other) && ClaimBefore(db, other, id) ==> ClaimBefore(db, first, id) {
      }
      if ClaimBefore(db, other, first) {
        first := other;
      }
    }
  }

  /** Claims of two workers never hand out the same task while the first lease runs. */
  lemma ClaimsAreDisjoint(cfg: Config, db: Db, first: WorkerIdentity, second: WorkerIdentity, classes: set<TaskClass>, locked: set<TaskId>,
                          pick: Option<TaskId>, again: Option<TaskId>, token: Token, token2: Token, now: Time, current: Time)
    requires Fenced(db) && ClaimRow(cfg, db, first, classes, locked, now, pick) && token !in db.issued
    requires Claim(cfg, db, first, pick, token, now, current).1.Some?
    requires var db' := Claim(cfg, db, first, pick, token, now, current).0;
             ClaimRow(cfg, db', second, classes, locked, now, again)
             && Claim(cfg, db', second, again, token2, now, current).1.Some?
    ensures again != pick
  {
  }
}
