/** The attempts of a task as its audit log: what they record is what became of the task. */
module AttemptLog {
  import opened Options
  import opened Contracts
  import opened ScrapeQueue
  import opened SourceBudget
  import opened DenialPolicy
  import opened Coordinator
  import opened Fencing
  import opened Changes
  import opened Frames
  import opened Fence
  import opened LeaseLife

  // ----- the invariant

  /** End, outcome and code are recorded together. */
  predicate Recorded(a: Attempt) {
    (a.finishedAt.None? <==> a.outcome.None?) && (a.finishedAt.None? <==> a.code.None?)
  }

  predicate Decides(a: Attempt) {
    a.outcome == Some(AttemptSucceeded) || a.outcome == Some(AttemptFailed)
  }

  /** A reason that only the attempt limit turns into a failure. */
  predicate Retriable(code: Code) {
    code in {TransportError, PortalDenied, SourceCooldown, LeaseExpired}
  }

  /** The last attempt of a finished task: it ended when the task did, with the task's own result; and where its
      reason would have allowed another attempt, none was left. */
  predicate Tells(queue: QueuePolicy, t: Task, a: Attempt) {
    a.finishedAt == t.finishedAt && a.code.Some?
    && (t.state.Succeeded? ==> a.outcome == Some(AttemptSucceeded))
    && (t.state.Failed? ==> (a.outcome == Some(AttemptFailed) || a.outcome == Some(AttemptExpired))
                            && (Retriable(a.code.value) ==> t.attemptCount >= queue.maxAttempts))
  }

  predicate TaskTold(queue: QueuePolicy, db: Db, id: TaskId)
    requires id in db.tasks
  {
    var t := db.tasks[id];
    (Terminal(t.state) <==> t.finishedAt.Some?)
    && (Terminal(t.state) ==> Newest(db, id) in db.attempts && Tells(queue, t, db.attempts[Newest(db, id)]))
  }

  predicate AttemptTold(db: Db, k: AttemptKey)
    requires k in db.attempts
  {
    Recorded(db.attempts[k])
    && (Decides(db.attempts[k]) ==> k.task in db.tasks && Terminal(db.tasks[k.task].state) && k.number == db.tasks[k.task].attemptCount)
  }

  ghost predicate Told(queue: QueuePolicy, db: Db) {
    (forall id :: id in db.tasks ==> TaskTold(queue, db, id))
    && (forall k :: k in db.attempts ==> AttemptTold(db, k))
  }

  // ----- the ways a step touches a task and its attempts

  /** The running lease of `id` ends: its newest attempt is closed. */
  lemma CloseTold(queue: QueuePolicy, db: Db, db': Db, id: TaskId, t': Task, a': Attempt)
    requires Told(queue, db) && Runs(db, id)
    requires db'.tasks == db.tasks[id := t'] && db'.attempts == db.attempts[Newest(db, id) := a']
    requires t'.attemptCount == db.tasks[id].attemptCount && (Terminal(t'.state) <==> t'.finishedAt.Some?)
    requires Recorded(a') && (Decides(a') ==> Terminal(t'.state)) && (Terminal(t'.state) ==> Tells(queue, t', a'))
    ensures Told(queue, db')
  {
    forall other | other in db'.tasks ensures TaskTold(queue, db', other) {
      if other != id {
        assert TaskTold(queue, db, other);
      }
    }
    forall k | k in db'.attempts ensures AttemptTold(db', k) {
      if k != Newest(db, id) {
        assert AttemptTold(db, k);
      }
    }
  }

  /** The rows differ in nothing that the log is about. */
  predicate SameEnds(a: Attempt, b: Attempt) {
    b.finishedAt == a.finishedAt && b.outcome == a.outcome && b.code == a.code
  }

  predicate SameFate(t: Task, t': Task) {
    (if Terminal(t.state) then t' == t else !Terminal(t'.state)) && t'.finishedAt == t.finishedAt && t'.attemptCount == t.attemptCount
  }

  lemma KeepTold(queue: QueuePolicy, db: Db, db': Db)
    requires Told(queue, db)
    requires forall id :: id in db'.tasks ==> id in db.tasks && SameFate(db.tasks[id], db'.tasks[id])
    requires forall id :: id in db.tasks ==> id in db'.tasks
    requires db'.attempts.Keys == db.attempts.Keys && forall k :: k in db.attempts ==> SameEnds(db.attempts[k], db'.attempts[k])
    ensures Told(queue, db')
  {
    forall id | id in db'.tasks ensures TaskTold(queue, db', id) {
      assert TaskTold(queue, db, id);
    }
    forall k | k in db'.attempts ensures AttemptTold(db', k) {
      assert AttemptTold(db, k);
    }
  }

  /** A claim adds an attempt that says nothing yet. */
  lemma TakeTold(cfg: Config, db: Db, c: Change)
    requires Fenced(db) && Told(cfg.queue, db) && Permitted(cfg, db, c) && c.LeaseTaken?
    ensures Told(cfg.queue, Commit(cfg, db, c))
  {
    hide Fenced, Current, TaskSound;
    var db' := Commit(cfg, db, c);
    assert TaskTold(cfg.queue, db, c.id);
    forall id | id in db'.tasks ensures TaskTold(cfg.queue, db', id) {
      if id != c.id {
        assert TaskTold(cfg.queue, db, id);
      }
    }
    forall k | k in db'.attempts ensures AttemptTold(db', k) {
      if k in db.attempts && k != Newest(db', c.id) {
        assert AttemptTold(db, k);
      }
    }
  }

  /** A refund removes an attempt that had said nothing yet. */
  lemma RefundTold(cfg: Config, db: Db, c: Change)
    requires Told(cfg.queue, db) && Permitted(cfg, db, c) && c.AttemptRefunded?
    ensures Told(cfg.queue, Commit(cfg, db, c))
  {
    hide Current, OpenUnder;
    var db' := Commit(cfg, db, c);
    assert TaskTold(cfg.queue, db, c.id);
    forall id | id in db'.tasks ensures TaskTold(cfg.queue, db', id) {
      if id != c.id {
        assert TaskTold(cfg.queue, db, id);
      }
    }
    forall k | k in db'.attempts ensures AttemptTold(db', k) {
      assert AttemptTold(db, k);
    }
  }

  lemma AddTold(cfg: Config, db: Db, c: Change)
    requires Fenced(db) && Told(cfg.queue, db) && Permitted(cfg, db, c) && (c.TaskAdded? || c.ReplayAdded?)
    ensures Told(cfg.queue, Commit(cfg, db, c))
  {
    hide NewKey, BindingOf, TaskSound;
    var db' := Commit(cfg, db, c);
    forall id | id in db'.tasks ensures TaskTold(cfg.queue, db', id) {
      if id != c.id {
        assert TaskTold(cfg.queue, db, id);
      }
    }
    forall k | k in db'.attempts ensures AttemptTold(db', k) {
      assert AttemptTold(db, k) && AttemptSound(db, k);
    }
  }

  // ----- the rows that endings write

  lemma FinishTells(queue: QueuePolicy, t: Task, a: Attempt, f: Finish, at: Time)
    requires t.state.Running? && t.finishedAt.None? && Requested(f) && !f.code.BudgetExhausted?
    ensures var t' := FinishedTask(queue, t, f, at);
            var a' := ClosedAttempt(a, OutcomeOf(Settled(queue, t, f, at).0), f.code, f.responseBytes, at);
            t'.attemptCount == t.attemptCount && (Terminal(t'.state) <==> t'.finishedAt.Some?)
            && Recorded(a') && (Decides(a') ==> Terminal(t'.state)) && (Terminal(t'.state) ==> Tells(queue, t', a'))
  {
    hide Backoff;
  }

  lemma ClosedTold(cfg: Config, db: Db, c: Change)
    requires Told(cfg.queue, db) && Permitted(cfg, db, c) && c.AttemptClosed?
    ensures Told(cfg.queue, Commit(cfg, db, c))
  {
    hide Told, Current, OpenUnder, Requested, FinishedTask, ClosedAttempt, OutcomeOf, Settled, Recorded, Decides, Tells;
    var t, a := db.tasks[c.id], db.attempts[Newest(db, c.id)];
    RunningTold(cfg.queue, db, c.id);
    FinishTells(cfg.queue, t, a, c.finish, c.at);
    CloseTold(cfg.queue, db, Commit(cfg, db, c), c.id, FinishedTask(cfg.queue, t, c.finish, c.at),
              ClosedAttempt(a, OutcomeOf(Settled(cfg.queue, t, c.finish, c.at).0), c.finish.code, c.finish.responseBytes, c.at));
  }

  lemma RunningTold(queue: QueuePolicy, db: Db, id: TaskId)
    requires Told(queue, db) && id in db.tasks && db.tasks[id].state.Running?
    ensures db.tasks[id].finishedAt.None?
  {
    assert TaskTold(queue, db, id);
  }

  lemma SucceedTells(queue: QueuePolicy, t: Task, a: Attempt, code: Code, bytes: int, at: Time)
    ensures var t', a' := SucceededTask(t, at), ClosedAttempt(a, AttemptSucceeded, code, bytes, at);
            t'.attemptCount == t.attemptCount && Terminal(t'.state) && t'.finishedAt.Some? && Recorded(a') && Tells(queue, t', a')
  {
  }

  function EndCode(c: Change): Code {
    match c
    case CaptureAccepted(_, outcome, _, _) => CaptureCode(outcome)
    case DiscoveryAccepted(_, _, _, _) => DiscoveryCaptured
    case ReplayAccepted(_, _, missing, _) => if missing then Partial else Downloaded
    case _ => Redirected
  }

  function EndBytes(c: Change, a: Attempt): int {
    if c.CaptureAccepted? || c.DiscoveryAccepted? then c.outcome.sizeBytes else a.responseBytes
  }

  lemma EndTold(cfg: Config, db: Db, c: Change)
    requires Told(cfg.queue, db) && Permitted(cfg, db, c) && (Completing(c) || c.HandedOff?)
    ensures Told(cfg.queue, Commit(cfg, db, c))
  {
    hide Told, Permitted, Commit, OpenUnder, CaptureCode, SucceededTask, ClosedAttempt, Recorded, Decides, Tells;
    EndCommits(cfg, db, c);
    var db' := Commit(cfg, db, c);
    var a, a' := db.attempts[Newest(db, c.id)], db'.attempts[Newest(db, c.id)];
    assert a' == ClosedAttempt(a, AttemptSucceeded, EndCode(c), EndBytes(c, a), c.at);
    SucceedTells(cfg.queue, db.tasks[c.id], a, EndCode(c), EndBytes(c, a), c.at);
    CloseTold(cfg.queue, db, db', c.id, db'.tasks[c.id], db'.attempts[Newest(db, c.id)]);
  }

  lemma StartTold(cfg: Config, db: Db, c: Change)
    requires Told(cfg.queue, db) && Permitted(cfg, db, c) && c.StartGranted?
    ensures Told(cfg.queue, Commit(cfg, db, c))
  {
    hide Told, Current, OpenUnder, MayStart, SourceStateAt, LedgerAt, FirstRoute, ChargedSource;
    KeepTold(cfg.queue, db, Commit(cfg, db, c));
  }

  lemma ObserveTold(cfg: Config, db: Db, c: Change)
    requires Told(cfg.queue, db) && Permitted(cfg, db, c) && c.OutcomeObserved?
    ensures Told(cfg.queue, Commit(cfg, db, c))
  {
    hide Told, Current, OpenUnder, SourceStateAt, LedgerAt, ObservedSource, Quarantined, Overruns, Uncharged, Decide;
    var db' := Commit(cfg, db, c);
    var t := db.tasks[c.id];
    RunningTold(cfg.queue, db, c.id);
    if c.decision.retryDirectAt.Some? {
      CloseTold(cfg.queue, db, db', c.id, db'.tasks[c.id], db'.attempts[Newest(db, c.id)]);
    } else {
      KeepTold(cfg.queue, db, db');
    }
  }

  lemma RenewTold(cfg: Config, db: Db, c: Change)
    requires Told(cfg.queue, db) && Permitted(cfg, db, c) && c.LeaseRenewed?
    ensures Told(cfg.queue, Commit(cfg, db, c))
  {
    hide Told, Current, OpenUnder;
    KeepTold(cfg.queue, db, Commit(cfg, db, c));
  }

  lemma HeldTold(cfg: Config, db: Db, c: Change)
    requires Told(cfg.queue, db) && c.HeldReleased?
    ensures Told(cfg.queue, Commit(cfg, db, c))
  {
    hide Told;
    KeepTold(cfg.queue, db, Commit(cfg, db, c));
  }

  lemma ReapTells(queue: QueuePolicy, t: Task, a: Attempt, now: Time)
    requires t.state.Running? && t.finishedAt.None?
    ensures var t', a' := ReapedTask(queue, t, now), ReapedAttempt(a, now);
            t'.attemptCount == t.attemptCount && (Terminal(t'.state) <==> t'.finishedAt.Some?)
            && Recorded(a') && !Decides(a') && (Terminal(t'.state) ==> Tells(queue, t', a'))
  {
  }

  /** Every reaped task runs, and has not finished. */
  predicate Reapable(db: Db, rows: set<TaskId>, id: TaskId) {
    id in rows ==> Runs(db, id) && db.tasks[id].finishedAt.None?
  }

  lemma ReapTask(cfg: Config, db: Db, rows: set<TaskId>, now: Time, id: TaskId)
    requires id in db.tasks && TaskTold(cfg.queue, db, id) && Reapable(db, rows, id)
    ensures TaskTold(cfg.queue, Reap(cfg, db, rows, now), id)
  {
    hide ReapedTask, ReapedAttempt, Tells, Recorded, Decides, OpenUnder;
    if id in rows {
      ReapTells(cfg.queue, db.tasks[id], db.attempts[Newest(db, id)], now);
    }
  }

  lemma ReapAttempt(cfg: Config, db: Db, rows: set<TaskId>, now: Time, k: AttemptKey)
    requires k in db.attempts && AttemptTold(db, k) && Reapable(db, rows, k.task)
    ensures AttemptTold(Reap(cfg, db, rows, now), k)
  {
    hide ReapedTask, ReapedAttempt, Tells, Recorded, Decides, OpenUnder;
    if k.task in rows {
      ReapTells(cfg.queue, db.tasks[k.task], db.attempts[k], now);
    }
  }

  lemma ReapTold(cfg: Config, db: Db, c: Change)
    requires Fenced(db) && Told(cfg.queue, db) && Permitted(cfg, db, c) && c.Reaped?
    ensures Told(cfg.queue, Commit(cfg, db, c))
  {
    hide Fenced, TaskTold, AttemptTold, OpenUnder;
    var db' := Commit(cfg, db, c);
    forall id ensures Reapable(db, c.rows, id) {
      if id in c.rows {
        assert Expired(db, c.now, id);
        RunningTold(cfg.queue, db, id);
        NewestAttempt(db, id);
      }
    }
    forall id | id in db'.tasks ensures TaskTold(cfg.queue, db', id) {
      ReapTask(cfg, db, c.rows, c.now, id);
    }
    forall k | k in db'.attempts ensures AttemptTold(db', k) {
      ReapAttempt(cfg, db, c.rows, c.now, k);
    }
  }

  lemma SameTold(queue: QueuePolicy, db: Db, db': Db)
    requires Told(queue, db) && SameQueue(db, db')
    ensures Told(queue, db')
  {
    KeepTold(queue, db, db');
  }

  lemma ChangeTold(cfg: Config, db: Db, c: Change)
    requires Fenced(db) && Told(cfg.queue, db) && Permitted(cfg, db, c)
    ensures Told(cfg.queue, Commit(cfg, db, c))
  {
    hide Fenced, Told, Permitted, Commit, SameQueue;
    if Outside(c) {
      QueueKept(cfg, db, c);
      SameTold(cfg.queue, db, Commit(cfg, db, c));
    } else if Completing(c) || c.HandedOff? {
      EndTold(cfg, db, c);
    } else {
      match c
      case TaskAdded(_, _) => AddTold(cfg, db, c);
      case ReplayAdded(_, _, _) => AddTold(cfg, db, c);
      case HeldReleased(_, _, _) => HeldTold(cfg, db, c);
      case Reaped(_, _) => ReapTold(cfg, db, c);
      case LeaseTaken(_, _, _, _, _) => TakeTold(cfg, db, c);
      case LeaseRenewed(_, _, _) => RenewTold(cfg, db, c);
      case AttemptRefunded(_, _, _) => RefundTold(cfg, db, c);
      case AttemptClosed(_, _, _) => ClosedTold(cfg, db, c);
      case StartGranted(_, _, _, _) => StartTold(cfg, db, c);
      case OutcomeObserved(_, _, _, _, _, _, _) => ObserveTold(cfg, db, c);
    }
  }

  lemma EmptyTold(queue: QueuePolicy)
    ensures Told(queue, EMPTY)
  {
  }

  lemma {:induction false} RunTold(cfg: Config, steps: seq<Step>)
    ensures Fenced(Run(cfg, EMPTY, steps)) && Told(cfg.queue, Run(cfg, EMPTY, steps))
    decreases |steps|
  {
    hide Fenced, Told, Apply, Permitted, Commit, Advances;
    if steps == [] {
      EmptyFenced();
      EmptyTold(cfg.queue);
    } else {
      var n := |steps| - 1;
      RunTold(cfg, steps[..n]);
      var db := Run(cfg, EMPTY, steps[..n]);
      var c := StepCommits(cfg, db, steps[n]);
      ChangeFenced(cfg, db, c);
      ChangeTold(cfg, db, c);
    }
  }

  // ----- what it means

  /** In every reachable database: a task has finished exactly when it carries an end time, and then its last
      attempt ended at that time with the task's own result.  No earlier attempt ever succeeded or failed for
      good, and a task fails for a passing reason (transport, denial, cooldown, a lost lease) only when its
      attempts are used up. */
  lemma AttemptsTellTheTask(cfg: Config, steps: seq<Step>, id: TaskId, k: AttemptKey)
    requires id in Run(cfg, EMPTY, steps).tasks
    ensures var db := Run(cfg, EMPTY, steps);
            var t := db.tasks[id];
            (Terminal(t.state) <==> t.finishedAt.Some?)
            && (Terminal(t.state) ==> Newest(db, id) in db.attempts && Tells(cfg.queue, t, db.attempts[Newest(db, id)]))
            && (k in db.attempts && k.task == id ==>
                  Recorded(db.attempts[k]) && (Decides(db.attempts[k]) ==> k == Newest(db, id) && Terminal(t.state)))
  {
    hide Fenced;
    RunTold(cfg, steps);
    var db := Run(cfg, EMPTY, steps);
    assert TaskTold(cfg.queue, db, id);
    if k in db.attempts {
      assert AttemptTold(db, k);
    }
  }

  // ----- how long a retry waits

  /** The wait doubles from 30 seconds with every attempt and never exceeds six hours. */
  lemma {:induction false} BackoffDoubles(n: int)
    requires 1 <= n
    ensures Backoff(1) == 30 && Backoff(n + 1) == Min(21600, 2 * Backoff(n))
    ensures Backoff(n) == 21600 <==> n >= 11
  {
    PowerGrows(n);
    PowerTen();
  }

  lemma {:induction false} PowerGrows(n: int)
    requires 1 <= n
    ensures Pow2(n - 1) >= 1 && Pow2(n) == 2 * Pow2(n - 1)
    ensures n >= 11 ==> Pow2(n - 1) >= 1024
    ensures n <= 10 ==> Pow2(n - 1) <= 512
    decreases n
  {
    PowerTen();
    if n > 1 {
      PowerGrows(n - 1);
    }
  }

  lemma PowerTen()
    ensures Pow2(9) == 512 && Pow2(10) == 1024
  {
    assert Pow2(2) == 4;
    assert Pow2(4) == 16;
    assert Pow2(6) == 64;
    assert Pow2(8) == 256;
  }
}
