/** What a permitted change does to one task row and to the history. */
module Effects {
  import opened Options
  import opened Contracts
  import opened ScrapeQueue
  import opened SourceBudget
  import opened Fencing
  import opened Changes
  import opened Frames

  /** The row of an existing task once the change is committed. */
  ghost function NextRow(cfg: Config, c: Change, id: TaskId, t: Task): Task {
    match c
    case HeldReleased(source, batch, now) =>
      if id in batch && t.state.Held? && t.source == source then t.(state := Pending, availableAt := now) else t
    case Reaped(rows, now) => if id in rows then ReapedTask(cfg.queue, t, now) else t
    case LeaseTaken(worker, i, pin, token, at) => if i == id then ClaimedTask(cfg.queue, t, pin, worker, token, at) else t
    case LeaseRenewed(i, expires, at) => if i == id then t.(leaseExpiresAt := Some(expires)) else t
    case AttemptRefunded(i, f, at) => if i == id then RefundedTask(t, f.availableAt) else t
    case AttemptClosed(i, f, at) => if i == id then FinishedTask(cfg.queue, t, f, at) else t
    case CaptureAccepted(i, outcome, expiresAt, at) => if i == id then SucceededTask(t, at) else t
    case DiscoveryAccepted(i, row, outcome, at) => if i == id then SucceededTask(t, at) else t
    case ReplayAccepted(i, content, missing, at) => if i == id then SucceededTask(t, at) else t
    case HandedOff(i, key, handoff, at) => if i == id then SucceededTask(t, at) else t
    case StartGranted(source, i, requested, now) => if i == id then FallbackConsumed(t) else t
    case OutcomeObserved(source, i, permit, cl, bytes, d, now) =>
      if i == id && d.retryDirectAt.Some? then FallbackTask(t, d.retryDirectAt.value) else t
    case _ => t
  }

  /** The events it appends. */
  ghost function Events(cfg: Config, db: Db, c: Change): seq<Event>
    requires Permitted(cfg, db, c)
  {
    match c
    case LeaseTaken(worker, id, pin, token, at) => [Claimed(id, token)]
    case AttemptRefunded(id, f, at) => [Refunded(id)]
    case CaptureAccepted(id, outcome, expiresAt, at) => [Accepted(id)]
    case ReplayAccepted(id, content, missing, at) => [Accepted(id)]
    case StartGranted(source, id, requested, now) =>
      [Started(source, id, RouteClass(Grant(cfg, db, source, id, Newest(db, id), requested, now).1), now)]
    case OutcomeObserved(source, id, permit, cl, bytes, d, now) =>
      [Observed(source, id, permit.route, cl, now, d.sourceCooldownUntil, d.retryDirectAt)]
    case _ => []
  }

  /** The task table and the history after a change of the queue. */
  ghost predicate RowsAre(cfg: Config, db: Db, db': Db, c: Change) {
    (forall id :: id in db.tasks ==> id in db'.tasks && db'.tasks[id] == NextRow(cfg, c, id, db.tasks[id]))
    && (forall id :: id in db'.tasks && id !in db.tasks ==>
          (c.TaskAdded? || c.ReplayAdded?) && id == c.id && db'.tasks[id] == c.task)
  }

  lemma BatchRowsAre(cfg: Config, db: Db, c: Change)
    requires Permitted(cfg, db, c) && (c.HeldReleased? || c.Reaped?)
    ensures RowsAre(cfg, db, Commit(cfg, db, c), c) && Commit(cfg, db, c).log == db.log
  {
    hide Permitted, Commit, ReapedTask, ReapedAttempt;
    QueueCommits(cfg, db, c);
  }

  lemma AddedRowsAre(cfg: Config, db: Db, c: Change)
    requires Permitted(cfg, db, c) && (c.TaskAdded? || c.ReplayAdded?)
    ensures RowsAre(cfg, db, Commit(cfg, db, c), c) && Commit(cfg, db, c).log == db.log
  {
    hide Permitted, Commit, BindingOf, NewKey, Blank;
    QueueCommits(cfg, db, c);
  }

  lemma LeaseRowsAre(cfg: Config, db: Db, c: Change)
    requires Permitted(cfg, db, c) && Holding(c)
    ensures RowsAre(cfg, db, Commit(cfg, db, c), c)
  {
    hide Permitted, Commit, Events, Claimable, ClaimedTask, NewAttempt, RefundedTask, FinishedTask, ClosedAttempt, Settled;
    LeaseCommits(cfg, db, c);
  }

  lemma LeaseLog(cfg: Config, db: Db, c: Change)
    requires Permitted(cfg, db, c) && Holding(c)
    ensures Commit(cfg, db, c).log == db.log + Events(cfg, db, c)
  {
    hide Permitted, Commit, Claimable, ClaimedTask, NewAttempt, RefundedTask, FinishedTask, ClosedAttempt, Settled;
    LeaseCommits(cfg, db, c);
  }

  lemma EndTasks(db: Db, c: Change)
    requires Finishing(c) && Runs(db, c.id) && (c.ReplayAccepted? ==> c.id in db.bindings)
    ensures EndCommit(db, c).tasks == db.tasks[c.id := SucceededTask(db.tasks[c.id], c.at)]
  {
    hide SucceededTask, ClosedAttempt, CaptureCode;
  }

  lemma EndAttempts(db: Db, c: Change)
    requires Finishing(c) && Runs(db, c.id) && (c.ReplayAccepted? ==> c.id in db.bindings)
    ensures var k := Newest(db, c.id);
            var after := EndCommit(db, c).attempts;
            k in after && after == db.attempts[k := after[k]]
            && exists code, bytes :: after[k] == ClosedAttempt(db.attempts[k], AttemptSucceeded, code, bytes, c.at)
  {
    hide SucceededTask, ClosedAttempt, CaptureCode;
  }

  lemma EndRowsAre(cfg: Config, db: Db, c: Change)
    requires Permitted(cfg, db, c) && Finishing(c)
    ensures RowsAre(cfg, db, Commit(cfg, db, c), c)
  {
    hide Permitted, Commit, EndCommit, SucceededTask;
    EndCommits(cfg, db, c);
    EndTasks(db, c);
  }

  lemma EndLog(cfg: Config, db: Db, c: Change)
    requires Permitted(cfg, db, c) && Finishing(c)
    ensures Commit(cfg, db, c).log == db.log + Events(cfg, db, c)
  {
    hide Permitted, Commit, SucceededTask, ClosedAttempt, CaptureCode;
    EndCommits(cfg, db, c);
  }

  lemma GrantRowsAre(cfg: Config, db: Db, c: Change)
    requires Permitted(cfg, db, c) && c.StartGranted?
    ensures RowsAre(cfg, db, Commit(cfg, db, c), c) && Commit(cfg, db, c).log == db.log + Events(cfg, db, c)
  {
    hide Permitted, Commit, SourceStateAt, LedgerAt, FirstRoute, FallbackConsumed, StartedAttempt, ChargedSource;
    BudgetCommits(cfg, db, c);
  }

  lemma ObserveRowsAre(cfg: Config, db: Db, c: Change)
    requires Permitted(cfg, db, c) && c.OutcomeObserved?
    ensures RowsAre(cfg, db, Commit(cfg, db, c), c) && Commit(cfg, db, c).log == db.log + Events(cfg, db, c)
  {
    hide Permitted, Commit, SourceStateAt, LedgerAt, ObservedSource, ObservedAttempt, Quarantined, FallbackTask;
    BudgetCommits(cfg, db, c);
  }

  lemma OutsideRowsAre(cfg: Config, db: Db, db': Db, c: Change)
    requires Outside(c) && SameQueue(db, db')
    ensures RowsAre(cfg, db, db', c)
  {
  }

  /** The whole effect of a change on the task table and the history. */
  lemma ChangeEffect(cfg: Config, db: Db, c: Change)
    requires Permitted(cfg, db, c)
    ensures RowsAre(cfg, db, Commit(cfg, db, c), c)
    ensures Commit(cfg, db, c).log == db.log + Events(cfg, db, c)
  {
    hide Permitted, Commit, RowsAre, SameQueue;
    if Outside(c) {
      QueueKept(cfg, db, c);
      OutsideRowsAre(cfg, db, Commit(cfg, db, c), c);
      QueueLog(db, Commit(cfg, db, c));
    } else if c.HeldReleased? || c.Reaped? {
      BatchRowsAre(cfg, db, c);
    } else if c.TaskAdded? || c.ReplayAdded? {
      AddedRowsAre(cfg, db, c);
    } else if Finishing(c) {
      EndRowsAre(cfg, db, c);
      EndLog(cfg, db, c);
    } else if c.StartGranted? {
      GrantRowsAre(cfg, db, c);
    } else if c.OutcomeObserved? {
      ObserveRowsAre(cfg, db, c);
    } else {
      LeaseRowsAre(cfg, db, c);
      LeaseLog(cfg, db, c);
    }
  }

  lemma QueueLog(db: Db, db': Db)
    requires SameQueue(db, db')
    ensures db'.log == db.log && db'.tasks == db.tasks && db'.attempts == db.attempts
  {
  }
}
