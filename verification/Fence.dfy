/** Every step keeps the fencing invariant and only advances tasks. */
module Fence {
  import opened Options
  import opened Contracts
  import opened ScrapeQueue
  import opened SourceBudget
  import opened DenialPolicy
  import opened Coordinator
  import opened Fencing
  import opened Changes
  import opened Frames

  lemma AcceptFenced(db: Db, db': Db, id: TaskId, at: Time)
    requires Fenced(db) && id in db.tasks && db.tasks[id].state.Running?
    requires var k := AttemptKey(id, db.tasks[id].attemptCount);
             k in db.attempts && k in db'.attempts && db'.attempts[k].token == db.attempts[k].token
             && db'.attempts[k].finishedAt.Some? && db'.attempts == db.attempts[k := db'.attempts[k]]
    requires db'.tasks == db.tasks[id := SucceededTask(db.tasks[id], at)] && db'.issued == db.issued
    ensures Fenced(db') && Advances(db, db')
  {
    hide Fenced, Advances, TaskAdvances, Released, SucceededTask;
    var t := db.tasks[id];
    SucceededRow(t, at, db.issued);
    CloseLease(db, db', id, SucceededTask(t, at), db'.attempts[AttemptKey(id, t.attemptCount)]);
  }

  lemma GrantFenced(cfg: Config, db: Db, source: Portal, id: TaskId, requested: int, now: Time)
    requires Fenced(db) && source in cfg.budgets && id in db.tasks && db.tasks[id].state.Running?
    requires AttemptKey(id, db.tasks[id].attemptCount) in db.attempts
    ensures var db' := Grant(cfg, db, source, id, AttemptKey(id, db.tasks[id].attemptCount), requested, now).0;
            Fenced(db') && Advances(db, db')
  {
    hide Fenced, Advances, TaskAdvances, SameLease, FallbackConsumed, FirstRoute, SourceStateAt, LedgerAt;
    var t := db.tasks[id];
    var k := AttemptKey(id, t.attemptCount);
    var db' := Grant(cfg, db, source, id, k, requested, now).0;
    SoundTask(db, id);
    KeptRows(t, db.issued);
    KeepLease(db, db', id, FallbackConsumed(t), db'.attempts[k]);
  }

  lemma ObserveFenced(cfg: Config, db: Db, source: Portal, id: TaskId, permit: NetworkPermit,
                      c: Classification, bytes: int, d: RouteDecision, now: Time)
    requires Fenced(db) && id in db.tasks && db.tasks[id].state.Running?
    requires AttemptKey(id, db.tasks[id].attemptCount) in db.attempts
    ensures var db' := Observe(cfg, db, source, id, AttemptKey(id, db.tasks[id].attemptCount), permit, c, bytes, d, now);
            Fenced(db') && Advances(db, db')
  {
    hide Fenced, Advances, TaskAdvances, Released, FallbackTask, SourceStateAt, LedgerAt, ObservedSource, Quarantined;
    var t := db.tasks[id];
    var k := AttemptKey(id, t.attemptCount);
    var db' := Observe(cfg, db, source, id, k, permit, c, bytes, d, now);
    SoundTask(db, id);
    if d.retryDirectAt.Some? {
      FallbackRow(t, d.retryDirectAt.value, db.issued);
      CloseLease(db, db', id, FallbackTask(t, d.retryDirectAt.value), db'.attempts[k]);
    } else {
      SameTask(t, db.issued);
      assert db'.tasks == db.tasks[id := t];
      KeepLease(db, db', id, t, db'.attempts[k]);
    }
  }

  /** A batch that moves rows one by one, each as it may, and leaves every token where it is. */
  lemma RowsFenced(db: Db, db': Db)
    requires Fenced(db) && db'.issued == db.issued && db'.tasks.Keys == db.tasks.Keys && db'.attempts.Keys == db.attempts.Keys
    requires forall id :: id in db.tasks ==> TaskSound(db', id) && TaskAdvances(db.tasks[id], db'.tasks[id], db.issued)
    requires forall k :: k in db.attempts ==> AttemptSound(db', k) && db'.attempts[k].token == db.attempts[k].token
    requires forall k :: k in db.attempts && k.task in db.tasks && Terminal(db.tasks[k.task].state) ==> db'.attempts[k] == db.attempts[k]
    ensures Fenced(db') && Advances(db, db')
  {
    hide TaskSound, AttemptSound, TaskAdvances;
    forall j, k | j in db'.attempts && k in db'.attempts && db'.attempts[j].token == db'.attempts[k].token ensures j == k {
      assert j in db.attempts && k in db.attempts;
    }
  }

  lemma HeldTask(db: Db, db': Db, source: Portal, batch: set<TaskId>, now: Time, id: TaskId)
    requires id in db.tasks && TaskSound(db, id) && db' == ReleaseHeld(db, source, batch, now)
    ensures TaskSound(db', id) && TaskAdvances(db.tasks[id], db'.tasks[id], db.issued)
  {
  }

  lemma ReleaseHeldFenced(db: Db, source: Portal, batch: set<TaskId>, now: Time)
    requires Fenced(db)
    ensures var db' := ReleaseHeld(db, source, batch, now); Fenced(db') && Advances(db, db')
  {
    hide Advances, TaskSound, TaskAdvances;
    var db' := ReleaseHeld(db, source, batch, now);
    forall id | id in db.tasks ensures TaskSound(db', id) && TaskAdvances(db.tasks[id], db'.tasks[id], db.issued) {
      HeldTask(db, db', source, batch, now, id);
    }
    forall k | k in db.attempts ensures AttemptSound(db', k) && db'.attempts[k].token == db.attempts[k].token {
      assert AttemptSound(db, k);
    }
    RowsFenced(db, db');
  }

  lemma ReapedTaskFenced(cfg: Config, db: Db, db': Db, rows: set<TaskId>, now: Time, id: TaskId)
    requires id in db.tasks && TaskSound(db, id) && db' == Reap(cfg, db, rows, now) && (id in rows ==> Expired(db, now, id))
    requires db.tasks[id].state.Running? ==> AttemptKey(id, db.tasks[id].attemptCount) in db.attempts
    ensures TaskSound(db', id) && TaskAdvances(db.tasks[id], db'.tasks[id], db.issued)
  {
    hide ReapedAttempt;
    assert db'.attempts.Keys == db.attempts.Keys;
    if id !in rows {
      assert db'.tasks[id] == db.tasks[id];
    }
  }

  lemma ReapedAttemptFenced(cfg: Config, db: Db, db': Db, rows: set<TaskId>, now: Time, k: AttemptKey)
    requires k in db.attempts && AttemptSound(db, k) && db' == Reap(cfg, db, rows, now) && (k.task in rows ==> Expired(db, now, k.task))
    ensures AttemptSound(db', k) && db'.attempts[k].token == db.attempts[k].token
    ensures Terminal(db.tasks[k.task].state) ==> db'.attempts[k] == db.attempts[k]
  {
  }

  lemma ReapFenced(cfg: Config, db: Db, rows: set<TaskId>, now: Time)
    requires Fenced(db) && forall id :: id in rows ==> Expired(db, now, id)
    ensures var db' := Reap(cfg, db, rows, now); Fenced(db') && Advances(db, db')
  {
    hide Advances, TaskSound, TaskAdvances, AttemptSound, Expired, ReapedTask, ReapedAttempt;
    var db' := Reap(cfg, db, rows, now);
    forall id | id in db.tasks ensures TaskSound(db', id) && TaskAdvances(db.tasks[id], db'.tasks[id], db.issued) {
      if db.tasks[id].state.Running? { NewestAttempt(db, id); }
      ReapedTaskFenced(cfg, db, db', rows, now, id);
    }
    forall k | k in db.attempts
      ensures AttemptSound(db', k) && db'.attempts[k].token == db.attempts[k].token
      ensures k.task in db.tasks && Terminal(db.tasks[k.task].state) ==> db'.attempts[k] == db.attempts[k]
    {
      ReapedAttemptFenced(cfg, db, db', rows, now, k);
    }
    RowsFenced(db, db');
  }

  lemma TakeFenced(cfg: Config, db: Db, worker: WorkerIdentity, id: TaskId, pin: Pointer, token: Token, at: Time)
    requires Fenced(db) && id in db.tasks && Claimable(cfg.queue, db.tasks[id]) && token !in db.issued
    ensures var db' := TakeLease(cfg, db, worker, id, pin, token, at); Fenced(db') && Advances(db, db')
  {
    hide Fenced, Advances, OnlyTask;
    var t' := ClaimedTask(cfg.queue, db.tasks[id], pin, worker, token, at);
    OpenLease(db, TakeLease(cfg, db, worker, id, pin, token, at), id, t', NewAttempt(t', token, worker.workerId, at));
  }

  lemma RenewFenced(db: Db, id: TaskId, expires: Time)
    requires Fenced(db) && Runs(db, id)
    ensures var db' := RenewLease(db, id, expires); Fenced(db') && Advances(db, db')
  {
    hide Fenced, Advances, OnlyTask;
    SoundTask(db, id);
    var db' := RenewLease(db, id, expires);
    KeepLease(db, db', id, db'.tasks[id], db.attempts[Newest(db, id)]);
  }

  lemma RefundFenced(db: Db, id: TaskId, availableAt: Option<Time>)
    requires Fenced(db) && Runs(db, id)
    ensures var db' := RefundAttempt(db, id, Newest(db, id), availableAt); Fenced(db') && Advances(db, db')
  {
    hide Fenced, Advances, TaskAdvances, NoLease, OpenUnder, RefundedTask;
    RefundedRow(db.tasks[id], availableAt, db.issued);
    RefundLease(db, RefundAttempt(db, id, Newest(db, id), availableAt), id, RefundedTask(db.tasks[id], availableAt));
  }

  lemma CloseFenced(cfg: Config, db: Db, id: TaskId, f: Finish, at: Time)
    requires Fenced(db) && Runs(db, id) && !f.state.Running?
    ensures var db' := CloseAttempt(cfg, db, id, Newest(db, id), f, at); Fenced(db') && Advances(db, db')
  {
    hide Fenced, Advances, TaskAdvances, Released, NoLease, OpenUnder, OutcomeOf, Settled, FinishedTask, ClosedAttempt;
    var t, a := db.tasks[id], db.attempts[Newest(db, id)];
    var outcome := OutcomeOf(Settled(cfg.queue, t, f, at).0);
    FinishedRow(cfg.queue, t, f, at, db.issued);
    ClosedRow(a, outcome, f.code, f.responseBytes, at);
    CloseLease(db, CloseAttempt(cfg, db, id, Newest(db, id), f, at), id, FinishedTask(cfg.queue, t, f, at),
               ClosedAttempt(a, outcome, f.code, f.responseBytes, at));
  }

  lemma BlankFenced(db: Db, db': Db, id: TaskId, t: Task)
    requires Fenced(db) && id !in db.tasks && Blank(t)
    requires db'.tasks == db.tasks[id := t] && db'.attempts == db.attempts && db'.issued == db.issued
    ensures Fenced(db') && Advances(db, db')
  {
    hide Fenced, Advances;
    IdleRow(db, db', id, t);
  }

  lemma EndFenced(cfg: Config, db: Db, c: Change)
    requires Fenced(db) && Permitted(cfg, db, c) && Finishing(c)
    ensures Fenced(Commit(cfg, db, c)) && Advances(db, Commit(cfg, db, c))
  {
    hide Permitted, Commit, Fenced, Advances, SucceededTask, OpenUnder, CaptureCode;
    EndCommits(cfg, db, c);
    AcceptFenced(db, Commit(cfg, db, c), c.id, c.at);
  }

  lemma QueueFenced(cfg: Config, db: Db, c: Change)
    requires Fenced(db) && Permitted(cfg, db, c) && Queueing(c)
    ensures Fenced(Commit(cfg, db, c)) && Advances(db, Commit(cfg, db, c))
  {
    hide Permitted, Commit, Fenced, Advances, Reap, ReleaseHeld, Blank, NewKey, Expired, BindingOf;
    QueueCommits(cfg, db, c);
    match c
    case TaskAdded(id, t) => BlankFenced(db, AddTask(db, id, t), id, t);
    case ReplayAdded(id, t, origin) => BlankFenced(db, AddReplay(db, id, t, BindingOf(db, origin)), id, t);
    case HeldReleased(source, batch, now) => ReleaseHeldFenced(db, source, batch, now);
    case Reaped(rows, now) => ReapFenced(cfg, db, rows, now);
  }

  lemma HoldFenced(cfg: Config, db: Db, c: Change)
    requires Fenced(db) && Permitted(cfg, db, c) && Holding(c)
    ensures Fenced(Commit(cfg, db, c)) && Advances(db, Commit(cfg, db, c))
  {
    hide Permitted, Commit, Fenced, Advances, TakeLease, RenewLease, RefundAttempt, CloseAttempt, Runs, Claimable;
    LeaseCommits(cfg, db, c);
    match c
    case LeaseTaken(worker, id, pin, token, at) => TakeFenced(cfg, db, worker, id, pin, token, at);
    case LeaseRenewed(id, expires, at) => RenewFenced(db, id, expires);
    case AttemptRefunded(id, f, at) => RefundFenced(db, id, f.availableAt);
    case AttemptClosed(id, f, at) => CloseFenced(cfg, db, id, f, at);
  }

  lemma BudgetFenced(cfg: Config, db: Db, c: Change)
    requires Fenced(db) && Permitted(cfg, db, c) && Budgeting(c) && !c.SourceTouched?
    ensures Fenced(Commit(cfg, db, c)) && Advances(db, Commit(cfg, db, c))
  {
    hide Permitted, Commit, Fenced, Advances, Grant, Observe, OpenUnder;
    BudgetCommits(cfg, db, c);
    match c
    case StartGranted(source, id, requested, now) => GrantFenced(cfg, db, source, id, requested, now);
    case OutcomeObserved(source, id, permit, cl, bytes, d, now) => ObserveFenced(cfg, db, source, id, permit, cl, bytes, d, now);
  }

  lemma ChangeFenced(cfg: Config, db: Db, c: Change)
    requires Fenced(db) && Permitted(cfg, db, c)
    ensures Fenced(Commit(cfg, db, c)) && Advances(db, Commit(cfg, db, c))
  {
    hide Permitted, Commit, Fenced, Advances;
    if Queueing(c) {
      QueueFenced(cfg, db, c);
    } else if Holding(c) {
      HoldFenced(cfg, db, c);
    } else if Finishing(c) {
      EndFenced(cfg, db, c);
    } else if c.StartGranted? || c.OutcomeObserved? {
      BudgetFenced(cfg, db, c);
    } else {
      QueueKept(cfg, db, c);
      SameRows(db, Commit(cfg, db, c));
    }
  }

  /** The invariant over one transaction of any kind. */
  lemma StepFenced(cfg: Config, db: Db, step: Step)
    requires Fenced(db)
    ensures Fenced(Apply(cfg, db, step)) && Advances(db, Apply(cfg, db, step))
  {
    hide Fenced, Advances, Apply, Permitted, Commit;
    var c := StepCommits(cfg, db, step);
    ChangeFenced(cfg, db, c);
  }
}
