/** Which tables a change leaves alone. */
module Frames {
  import opened Options
  import opened Contracts
  import opened ScrapeQueue
  import opened SourceBudget
  import opened DenialPolicy
  import opened Fencing
  import opened Changes
  import ParserReleases
  import Redirects

  predicate SameResults(db: Db, db': Db) {
    db'.results == db.results && db'.captures == db.captures
  }

  predicate SameReleases(db: Db, db': Db) {
    db'.pointers == db.pointers && db'.releases == db.releases && db'.audits == db.audits
  }

  predicate SameBudget(db: Db, db': Db) {
    db'.sources == db.sources && db'.ledgers == db.ledgers
  }

  /** A step of the queue proper: it moves tasks, attempts, workers or handoffs. */
  predicate SameAll(db: Db, db': Db) {
    SameResults(db, db') && SameReleases(db, db') && SameBudget(db, db') && db'.bindings == db.bindings
  }

  /** A completion: it may add results. */
  predicate SameControl(db: Db, db': Db) {
    SameReleases(db, db') && SameBudget(db, db') && db'.bindings == db.bindings
  }

  /** A budget step. */
  predicate SameOutside(db: Db, db': Db) {
    SameResults(db, db') && SameReleases(db, db') && db'.bindings == db.bindings
  }

  /** Planning a replay adds a binding. */
  predicate SameTables(db: Db, db': Db) {
    SameResults(db, db') && SameReleases(db, db') && SameBudget(db, db')
  }

  /** Changes of the queue proper: they move tasks, attempts, workers, routes or handoffs. */
  predicate Leasing(c: Change) {
    c.Nothing? || c.WorkerSeen? || c.TaskAdded? || c.HeldReleased? || c.Reaped? || c.LeaseTaken? || c.LeaseRenewed?
    || c.AttemptRefunded? || c.AttemptClosed? || c.HandedOff? || c.RouteAdded?
  }

  predicate Completing(c: Change) { c.CaptureAccepted? || c.DiscoveryAccepted? || c.ReplayAccepted? }

  predicate Releasing(c: Change) { c.ReleaseAdded? || c.PointerMoved? }

  /** Changes that touch no task, attempt, token or history. */
  predicate Outside(c: Change) {
    c.Nothing? || c.WorkerSeen? || c.RouteAdded? || c.SourceTouched? || Releasing(c) || c.ResultsPurged?
  }

  lemma AttemptRows(cfg: Config, db: Db, id: TaskId, k: AttemptKey, f: Finish, expires: Time)
    requires id in db.tasks && k in db.attempts
    ensures SameAll(db, RenewLease(db, id, expires))
    ensures SameAll(db, RefundAttempt(db, id, k, f.availableAt))
    ensures SameAll(db, CloseAttempt(cfg, db, id, k, f, expires))
  {
    hide RefundedTask, FinishedTask, ClosedAttempt, Settled;
  }

  lemma TakeRows(cfg: Config, db: Db, worker: WorkerIdentity, id: TaskId, pin: Pointer, token: Token, at: Time)
    requires id in db.tasks
    ensures SameAll(db, TakeLease(cfg, db, worker, id, pin, token, at))
  {
    hide ClaimedTask, NewAttempt;
  }

  lemma Unchanged(db: Db)
    ensures SameAll(db, db)
  {
  }

  lemma AddReplayRows(db: Db, id: TaskId, t: Task, b: Binding)
    ensures SameTables(db, AddReplay(db, id, t, b))
  {
  }

  lemma AddTaskRows(db: Db, id: TaskId, t: Task)
    ensures SameAll(db, AddTask(db, id, t))
  {
  }

  lemma RegistryRows(db: Db, worker: WorkerIdentity, row: Worker, route: RouteId)
    ensures SameAll(db, SeenWorker(db, worker, row)) && SameQueue(db, SeenWorker(db, worker, row))
    ensures SameAll(db, RegisterProxyRoute(db, route)) && SameQueue(db, RegisterProxyRoute(db, route))
  {
  }

  lemma BatchRows(cfg: Config, db: Db, rows: set<TaskId>, source: Portal, now: Time)
    ensures SameAll(db, Reap(cfg, db, rows, now))
    ensures SameAll(db, ReleaseHeld(db, source, rows, now))
  {
    hide ReapedTask, ReapedAttempt;
  }

  lemma HandoffRows(db: Db, task: TaskId, key: HandoffKey, id: int, k: AttemptKey, at: Time)
    requires task in db.tasks && k in db.attempts
    ensures SameAll(db, Redirects.EndLease(db, task, key, id, k, at))
  {
    hide SucceededTask, ClosedAttempt;
  }

  lemma QueueingFrame(cfg: Config, db: Db, c: Change)
    requires Permitted(cfg, db, c) && Queueing(c)
    ensures if c.ReplayAdded? then SameTables(db, Commit(cfg, db, c)) else SameAll(db, Commit(cfg, db, c))
  {
    hide Permitted, Commit, SameAll, SameTables, AddTask, AddReplay, ReleaseHeld, Reap, Blank, NewKey, Expired, BindingOf;
    QueueCommits(cfg, db, c);
    match c
    case TaskAdded(id, t) => AddTaskRows(db, id, t);
    case ReplayAdded(id, t, origin) => AddReplayRows(db, id, t, BindingOf(db, origin));
    case HeldReleased(source, batch, now) => BatchRows(cfg, db, batch, source, now);
    case Reaped(rows, now) => BatchRows(cfg, db, rows, Gratka, now);
  }

  lemma HoldingFrame(cfg: Config, db: Db, c: Change)
    requires Permitted(cfg, db, c) && Holding(c)
    ensures SameAll(db, Commit(cfg, db, c))
  {
    hide Permitted, Commit, SameAll, TakeLease, RenewLease, RefundAttempt, CloseAttempt, OpenUnder, Claimable;
    LeaseCommits(cfg, db, c);
    match c
    case LeaseTaken(worker, id, pin, token, at) => TakeRows(cfg, db, worker, id, pin, token, at);
    case LeaseRenewed(id, expires, at) => AttemptRows(cfg, db, id, Newest(db, id), Finish(Downloaded, Failed, 0, false, None), expires);
    case AttemptRefunded(id, f, at) => AttemptRows(cfg, db, id, Newest(db, id), f, at);
    case AttemptClosed(id, f, at) => AttemptRows(cfg, db, id, Newest(db, id), f, at);
  }

  /** A change that only registers a worker or a route, or does nothing. */
  predicate Idling(c: Change) { c.Nothing? || c.WorkerSeen? || c.RouteAdded? }

  lemma IdlingFrame(cfg: Config, db: Db, c: Change)
    requires Permitted(cfg, db, c) && Idling(c)
    ensures SameAll(db, Commit(cfg, db, c)) && SameQueue(db, Commit(cfg, db, c))
  {
    hide Permitted, Commit, SameAll, SeenWorker, RegisterProxyRoute;
    RegistryCommits(cfg, db, c);
    match c
    case Nothing => Unchanged(db);
    case WorkerSeen(worker, row) => RegistryRows(db, worker, row, 0);
    case RouteAdded(route) => RegistryRows(db, WorkerIdentity("", Gratka, Nas), Worker(Gratka, Nas, 0, {}, true), route);
  }

  lemma HandingFrame(cfg: Config, db: Db, c: Change)
    requires Permitted(cfg, db, c) && c.HandedOff?
    ensures SameAll(db, Commit(cfg, db, c))
  {
    hide Permitted, Commit, SameAll, Redirects.EndLease, OpenUnder;
    EndCommits(cfg, db, c);
    HandoffRows(db, c.id, c.key, c.handoff, Newest(db, c.id), c.at);
  }

  lemma LeasingFrame(cfg: Config, db: Db, c: Change)
    requires Permitted(cfg, db, c) && (Leasing(c) || c.ReplayAdded?)
    ensures if c.ReplayAdded? then SameTables(db, Commit(cfg, db, c)) else SameAll(db, Commit(cfg, db, c))
    ensures Idling(c) ==> SameQueue(db, Commit(cfg, db, c))
  {
    hide Permitted, Commit, SameAll, SameTables, SameQueue;
    if Idling(c) {
      IdlingFrame(cfg, db, c);
    } else if Holding(c) {
      HoldingFrame(cfg, db, c);
    } else if c.HandedOff? {
      HandingFrame(cfg, db, c);
    } else {
      QueueingFrame(cfg, db, c);
    }
  }

  lemma AcceptRows(db: Db, id: TaskId, k: AttemptKey, outcome: CaptureOutcome, row: Discovery, content: string, missing: bool,
                   expiresAt: Time, at: Time)
    requires id in db.tasks && k in db.attempts
    ensures SameControl(db, AcceptCapture(db, id, k, outcome, expiresAt, at))
    ensures SameControl(db, AcceptDiscovery(db, id, k, row, outcome, at))
    ensures id in db.bindings ==> SameControl(db, AcceptReplay(db, id, k, content, missing, at))
  {
    hide SucceededTask, ClosedAttempt, CaptureCode;
  }

  lemma CompletingFrame(cfg: Config, db: Db, c: Change)
    requires Permitted(cfg, db, c) && Completing(c)
    ensures SameControl(db, Commit(cfg, db, c))
  {
    hide Permitted, Commit, SameControl, AcceptCapture, AcceptDiscovery, AcceptReplay, OpenUnder;
    EndCommits(cfg, db, c);
    match c
    case CaptureAccepted(id, outcome, expiresAt, at) =>
      AcceptRows(db, id, Newest(db, id), outcome, Discovery(0, 0, ""), "", false, expiresAt, at);
    case DiscoveryAccepted(id, row, outcome, at) => AcceptRows(db, id, Newest(db, id), outcome, row, "", false, 0, at);
    case ReplayAccepted(id, content, missing, at) =>
      AcceptReplayRows(db, id, Newest(db, id), content, missing, at);
  }

  lemma AcceptReplayRows(db: Db, id: TaskId, k: AttemptKey, content: string, missing: bool, at: Time)
    requires id in db.tasks && k in db.attempts && id in db.bindings
    ensures SameControl(db, AcceptReplay(db, id, k, content, missing, at))
  {
    hide SucceededTask, ClosedAttempt;
  }

  lemma BudgetRows(cfg: Config, db: Db, source: Portal, id: TaskId, k: AttemptKey, permit: NetworkPermit, requested: int,
                   c: Classification, bytes: int, d: RouteDecision, now: Time)
    requires source in cfg.budgets && id in db.tasks && k in db.attempts
    ensures SameOutside(db, Grant(cfg, db, source, id, k, requested, now).0)
    ensures SameOutside(db, Observe(cfg, db, source, id, k, permit, c, bytes, d, now))
  {
    hide SourceStateAt, LedgerAt, FirstRoute, FallbackConsumed, StartedAttempt, ChargedSource, ObservedSource, ObservedAttempt,
         Quarantined, FallbackTask;
  }

  lemma TouchRows(db: Db, source: Portal, now: Time)
    ensures SameOutside(db, TouchSource(db, source, now)) && SameQueue(db, TouchSource(db, source, now))
  {
    hide SourceStateAt;
  }

  lemma BudgetingFrame(cfg: Config, db: Db, c: Change)
    requires Permitted(cfg, db, c) && Budgeting(c)
    ensures SameOutside(db, Commit(cfg, db, c))
    ensures c.SourceTouched? ==> SameQueue(db, Commit(cfg, db, c))
  {
    hide Permitted, Commit, SameOutside, SameQueue, Grant, Observe, TouchSource, OpenUnder, Decide;
    BudgetCommits(cfg, db, c);
    match c
    case StartGranted(source, id, requested, now) =>
      BudgetRows(cfg, db, source, id, Newest(db, id), NetworkPermit(true, now, Direct, None), requested, Success, 0,
                 Decide(Direct, Success, now, 0, None), now);
    case OutcomeObserved(source, id, permit, cl, bytes, d, now) => BudgetRows(cfg, db, source, id, Newest(db, id), permit, 0, cl, bytes, d, now);
    case SourceTouched(source, now) => TouchRows(db, source, now);
  }

  predicate SameData(db: Db, db': Db) {
    SameResults(db, db') && SameBudget(db, db') && db'.bindings == db.bindings && SameQueue(db, db')
  }

  predicate SameRest(db: Db, db': Db) {
    SameReleases(db, db') && SameBudget(db, db') && SameQueue(db, db')
  }

  lemma ReleasingFrame(cfg: Config, db: Db, c: Change)
    requires Permitted(cfg, db, c) && Releasing(c)
    ensures SameData(db, Commit(cfg, db, c))
  {
    hide Permitted, Commit, ParserReleases.Withdraw, AuditsOf, ParserReleases.CurrentRelease, ParserReleases.CurrentEpoch;
    RegistryCommits(cfg, db, c);
  }

  lemma PurgingFrame(cfg: Config, db: Db, c: Change)
    requires Permitted(cfg, db, c) && c.ResultsPurged?
    ensures SameRest(db, Commit(cfg, db, c))
  {
    hide Permitted, Commit;
    RegistryCommits(cfg, db, c);
  }

  // ----- table by table

  /** Only a registration or a pointer change touches pointers, releases and audits. */
  lemma ReleasesKept(cfg: Config, db: Db, c: Change)
    requires Permitted(cfg, db, c) && !Releasing(c)
    ensures SameReleases(db, Commit(cfg, db, c))
  {
    hide Permitted, Commit;
    ByKind(cfg, db, c);
  }

  /** Only budget steps touch source counters and ledgers. */
  lemma BudgetKept(cfg: Config, db: Db, c: Change)
    requires Permitted(cfg, db, c) && !Budgeting(c)
    ensures SameBudget(db, Commit(cfg, db, c))
  {
    hide Permitted, Commit;
    ByKind(cfg, db, c);
  }

  /** Only completions and the purge touch results and captures. */
  lemma ResultsKept(cfg: Config, db: Db, c: Change)
    requires Permitted(cfg, db, c) && !Completing(c) && !c.ResultsPurged?
    ensures SameResults(db, Commit(cfg, db, c))
  {
    hide Permitted, Commit;
    ByKind(cfg, db, c);
  }

  /** Only planning a replay and the purge touch bindings. */
  lemma BindingsKept(cfg: Config, db: Db, c: Change)
    requires Permitted(cfg, db, c) && !c.ReplayAdded? && !c.ResultsPurged?
    ensures Commit(cfg, db, c).bindings == db.bindings
  {
    hide Permitted, Commit;
    ByKind(cfg, db, c);
  }

  /** Changes outside the queue touch no task, attempt, token or history. */
  lemma QueueKept(cfg: Config, db: Db, c: Change)
    requires Permitted(cfg, db, c) && Outside(c)
    ensures SameQueue(db, Commit(cfg, db, c))
  {
    hide Permitted, Commit;
    ByKind(cfg, db, c);
  }

  lemma ByKind(cfg: Config, db: Db, c: Change)
    requires Permitted(cfg, db, c)
    ensures var db' := Commit(cfg, db, c);
            (Leasing(c) && SameAll(db, db')) || (c.ReplayAdded? && SameTables(db, db')) || (Completing(c) && SameControl(db, db'))
            || (Budgeting(c) && SameOutside(db, db')) || (Releasing(c) && SameData(db, db')) || (c.ResultsPurged? && SameRest(db, db'))
    ensures Outside(c) ==> SameQueue(db, Commit(cfg, db, c))
  {
    hide Permitted, Commit, SameAll, SameTables, SameControl, SameOutside, SameReleases, SameBudget, SameResults;
    if Leasing(c) || c.ReplayAdded? {
      LeasingFrame(cfg, db, c);
    } else if Completing(c) {
      CompletingFrame(cfg, db, c);
    } else if Budgeting(c) {
      BudgetingFrame(cfg, db, c);
    } else if Releasing(c) {
      ReleasingFrame(cfg, db, c);
    } else {
      PurgingFrame(cfg, db, c);
    }
  }
}
