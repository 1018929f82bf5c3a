/** The normal form of a step: every transaction commits one of a fixed list of changes, under a guard. */
module Changes {
  import opened Options
  import opened Contracts
  import opened ScrapeQueue
  import opened SourceBudget
  import opened DenialPolicy
  import opened Coordinator
  import opened Fencing
  import ParserReleases
  import Redirects
  import Calendar

  datatype Change =
    | Nothing
    | WorkerSeen(worker: WorkerIdentity, row: Worker)
    | TaskAdded(id: TaskId, task: Task)
    | ReplayAdded(id: TaskId, task: Task, origin: TaskId)
    | HeldReleased(source: Portal, batch: set<TaskId>, now: Time)
    | Reaped(rows: set<TaskId>, now: Time)
    | LeaseTaken(worker: WorkerIdentity, id: TaskId, pin: Pointer, token: Token, at: Time)
    | LeaseRenewed(id: TaskId, expires: Time, at: Time)
    | AttemptRefunded(id: TaskId, finish: Finish, at: Time)
    | AttemptClosed(id: TaskId, finish: Finish, at: Time)
    | CaptureAccepted(id: TaskId, outcome: CaptureOutcome, expiresAt: Time, at: Time)
    | DiscoveryAccepted(id: TaskId, discovery: Discovery, outcome: CaptureOutcome, at: Time)
    | ReplayAccepted(id: TaskId, content: string, missing: bool, at: Time)
    | HandedOff(id: TaskId, key: HandoffKey, handoff: int, at: Time)
    | StartGranted(source: Portal, id: TaskId, requested: int, now: Time)
    | OutcomeObserved(source: Portal, id: TaskId, permit: NetworkPermit, classification: Classification, bytes: int,
                      decision: RouteDecision, now: Time)
    | SourceTouched(source: Portal, now: Time)
    | RouteAdded(route: RouteId)
    | ReleaseAdded(hash: Hash, release: Release)
    | PointerMoved(source: Portal, hash: Hash, action: ChangeAction, now: Time)
    | ResultsPurged(ids: set<TaskId>, today: Calendar.Moment)

  function Newest(db: Db, id: TaskId): AttemptKey
    requires id in db.tasks
  {
    AttemptKey(id, db.tasks[id].attemptCount)
  }

  /** The task runs, and its newest attempt is the open one. */
  predicate Runs(db: Db, id: TaskId) {
    id in db.tasks && db.tasks[id].state.Running?
    && Newest(db, id) in db.attempts && OpenUnder(db.attempts[Newest(db, id)], db.tasks[id])
  }

  /** The portal's pointer still names the task's pin; discovery tasks have no such fence. */
  predicate Current(db: Db, id: TaskId)
    requires id in db.tasks
  {
    var t := db.tasks[id];
    t.taskClass.DiscoveryCapture? || PointsAt(db, t.source, t.releaseHash, t.activationEpoch)
  }

  predicate Blank(t: Task) {
    NoLease(t) && t.attemptCount == 0 && t.finishedAt.None? && !t.fallbackPending && t.fallbackAt.None?
    && t.priority == Priority(t.taskClass)
    && t.state == if t.taskClass.NetworkRecovery? then Held else Pending
  }

  /** What the three ways of ending a lease by hand ask for: success, failure (transport errors are retried),
      or a deferral. */
  predicate Requested(f: Finish) {
    (f.state.Succeeded? ==> f.code in {Downloaded, Partial, ArtifactUnavailable})
    && (f.state.Failed? ==> f.code in {TransportError, ParserError, InvalidTarget, ArtifactUnavailable})
    && (f.state.Deferred? ==> f.code in {PortalDenied, SourceCooldown, BudgetExhausted} && f.availableAt.Some?)
    && (f.retry <==> f.state.Failed? && f.code.TransportError?)
    && (f.state.Succeeded? || f.state.Failed? || f.state.Deferred?)
  }

  ghost predicate NewKey(db: Db, key: IdempotencyKey) {
    forall id :: !HasKey(db, key, id)
  }

  // ----- what the transaction has checked before it commits the change, and the rows the change writes

  /** Changes that add tasks, or move many at once. */
  predicate Queueing(c: Change) { c.TaskAdded? || c.ReplayAdded? || c.HeldReleased? || c.Reaped? }

  /** Changes that start, renew or give up a lease. */
  predicate Holding(c: Change) { c.LeaseTaken? || c.LeaseRenewed? || c.AttemptRefunded? || c.AttemptClosed? }

  /** Changes that end a lease with a result or a handoff. */
  predicate Finishing(c: Change) { c.CaptureAccepted? || c.DiscoveryAccepted? || c.ReplayAccepted? || c.HandedOff? }

  predicate Budgeting(c: Change) { c.StartGranted? || c.OutcomeObserved? || c.SourceTouched? }

  predicate Registering(c: Change) { !Queueing(c) && !Holding(c) && !Finishing(c) && !Budgeting(c) }

  ghost predicate QueuePermitted(db: Db, c: Change)
    requires Queueing(c)
  {
    match c
    case TaskAdded(id, t) =>
      id !in db.tasks && Blank(t) && NewKey(db, t.key)
      && (t.taskClass.DiscoveryCapture? || PointsAt(db, t.source, t.releaseHash, t.activationEpoch))
    case ReplayAdded(id, t, origin) =>
      id !in db.tasks && Blank(t) && NewKey(db, t.key) && t.taskClass.ArtifactRecovery?
      && PointsAt(db, t.source, t.releaseHash, t.activationEpoch)
      && origin in db.results && db.results[origin].captureId in db.captures
    case HeldReleased(source, batch, now) => true
    case Reaped(rows, now) => forall id :: id in rows ==> Expired(db, now, id)
  }

  ghost predicate LeasePermitted(cfg: Config, db: Db, c: Change)
    requires Holding(c)
  {
    match c
    case LeaseTaken(worker, id, pin, token, at) =>
      id in db.tasks && Claimable(cfg.queue, db.tasks[id]) && token !in db.issued && db.tasks[id].source == worker.source
      && (if db.tasks[id].taskClass.DiscoveryCapture?
          then pin == Pointer(db.tasks[id].releaseHash, db.tasks[id].activationEpoch)
          else PointsAt(db, worker.source, pin.releaseHash, pin.epoch))
    case LeaseRenewed(id, expires, at) =>
      Runs(db, id) && Current(db, id) && db.tasks[id].leaseStartedAt.Some? && at < expires
      && expires == Min(at + Seconds(cfg.queue.leaseSeconds), db.tasks[id].leaseStartedAt.value + Seconds(cfg.queue.maxLeaseSeconds))
    case AttemptRefunded(id, f, at) => Runs(db, id) && Current(db, id) && f.code.BudgetExhausted?
    case AttemptClosed(id, f, at) =>
      Runs(db, id) && Current(db, id) && !f.code.BudgetExhausted? && Requested(f)
  }

  ghost predicate EndPermitted(db: Db, c: Change)
    requires Finishing(c)
  {
    match c
    case CaptureAccepted(id, outcome, expiresAt, at) =>
      Runs(db, id) && Current(db, id) && id !in db.results && outcome.captureId !in db.captures
      && !db.tasks[id].taskClass.DiscoveryCapture? && outcome.releaseHash == db.tasks[id].releaseHash
      && var expiry := Calendar.TwoYearsAfter(outcome.fetchedAt);
         expiry.Some? && expiresAt == Calendar.Instant(expiry.value)
    case DiscoveryAccepted(id, row, outcome, at) =>
      Runs(db, id) && id !in db.discoveries && outcome.captureId !in db.captures && db.tasks[id].taskClass.DiscoveryCapture?
    case ReplayAccepted(id, content, missing, at) =>
      Runs(db, id) && Current(db, id) && id !in db.results && id in db.bindings && db.tasks[id].taskClass.ArtifactRecovery?
    case HandedOff(id, key, handoff, at) => Runs(db, id) && key !in db.handoffs
  }

  ghost predicate BudgetPermitted(cfg: Config, db: Db, c: Change)
    requires Budgeting(c)
  {
    match c
    case StartGranted(source, id, requested, now) =>
      Runs(db, id) && Current(db, id) && source in cfg.budgets && db.tasks[id].source == source && 0 <= requested <= 2_000_000
      && db.attempts[Newest(db, id)].route.Unassigned?
      && MayStart(cfg.budgets[source], SourceStateAt(db, source, now), db.tasks[id], now)
    case OutcomeObserved(source, id, permit, c, bytes, d, now) =>
      Runs(db, id) && Current(db, id) && source in cfg.budgets && db.tasks[id].source == source && 0 <= bytes <= 2_000_000
      && permit.granted && !permit.route.Unassigned?
      && db.attempts[Newest(db, id)].route == permit.route && db.attempts[Newest(db, id)].routeId == permit.routeId
      && db.attempts[Newest(db, id)].classification.None?
      && !Overruns(cfg, db, Newest(db, id), permit, bytes, now) && !Uncharged(SourceStateAt(db, source, now), c)
      && exists retryAfter: Option<int> ::
           Waits(retryAfter) && d == Decide(permit.route, c, now, SourceStateAt(db, source, now).directDenialCount, retryAfter)
    case SourceTouched(source, now) => true
  }

  ghost predicate RegistryPermitted(db: Db, c: Change) {
    match c
    case WorkerSeen(worker, row) =>
      row.source == worker.source && row.deployment == worker.deployment
      && (worker.workerId in db.workers ==> Registered(db, worker) && db.workers[worker.workerId].heartbeatAt <= row.heartbeatAt)
    case ReleaseAdded(hash, row) => hash !in db.releases && row.status.Draft?
    case PointerMoved(source, hash, action, now) =>
      hash in db.releases && db.releases[hash].source == source && !db.releases[hash].status.Revoked?
    case ResultsPurged(ids, today) => forall id :: id in ids ==> PurgeRow(db, today, id)
    case _ => true
  }

  ghost predicate Permitted(cfg: Config, db: Db, c: Change) {
    if Queueing(c) then QueuePermitted(db, c)
    else if Holding(c) then LeasePermitted(cfg, db, c)
    else if Finishing(c) then EndPermitted(db, c)
    else if Budgeting(c) then BudgetPermitted(cfg, db, c)
    else RegistryPermitted(db, c)
  }

  /** A `Retry-After` the coordinator accepts. */
  predicate Waits(retryAfter: Option<int>) { retryAfter.Some? ==> retryAfter.value >= 0 }

  ghost function QueueCommit(cfg: Config, db: Db, c: Change): Db
    requires Queueing(c) && (c.ReplayAdded? ==> c.origin in db.results && db.results[c.origin].captureId in db.captures)
  {
    match c
    case TaskAdded(id, t) => AddTask(db, id, t)
    case ReplayAdded(id, t, origin) => AddReplay(db, id, t, BindingOf(db, origin))
    case HeldReleased(source, batch, now) => ReleaseHeld(db, source, batch, now)
    case Reaped(rows, now) => Reap(cfg, db, rows, now)
  }

  ghost function LeaseCommit(cfg: Config, db: Db, c: Change): Db
    requires Holding(c) && c.id in db.tasks && (c.LeaseTaken? || Runs(db, c.id))
  {
    match c
    case LeaseTaken(worker, id, pin, token, at) => TakeLease(cfg, db, worker, id, pin, token, at)
    case LeaseRenewed(id, expires, at) => RenewLease(db, id, expires)
    case AttemptRefunded(id, f, at) => RefundAttempt(db, id, Newest(db, id), f.availableAt)
    case AttemptClosed(id, f, at) => CloseAttempt(cfg, db, id, Newest(db, id), f, at)
  }

  ghost function EndCommit(db: Db, c: Change): Db
    requires Finishing(c) && Runs(db, c.id) && (c.ReplayAccepted? ==> c.id in db.bindings)
  {
    match c
    case CaptureAccepted(id, outcome, expiresAt, at) => AcceptCapture(db, id, Newest(db, id), outcome, expiresAt, at)
    case DiscoveryAccepted(id, row, outcome, at) => AcceptDiscovery(db, id, Newest(db, id), row, outcome, at)
    case ReplayAccepted(id, content, missing, at) => AcceptReplay(db, id, Newest(db, id), content, missing, at)
    case HandedOff(id, key, handoff, at) => Redirects.EndLease(db, id, key, handoff, Newest(db, id), at)
  }

  ghost function BudgetCommit(cfg: Config, db: Db, c: Change): Db
    requires Budgeting(c) && (c.SourceTouched? || (Runs(db, c.id) && c.source in cfg.budgets))
  {
    match c
    case StartGranted(source, id, requested, now) => Grant(cfg, db, source, id, Newest(db, id), requested, now).0
    case OutcomeObserved(source, id, permit, c, bytes, d, now) => Observe(cfg, db, source, id, Newest(db, id), permit, c, bytes, d, now)
    case SourceTouched(source, now) => TouchSource(db, source, now)
  }

  ghost function RegistryCommit(db: Db, c: Change): Db
    requires Registering(c) && (c.PointerMoved? ==> c.hash in db.releases)
  {
    match c
    case Nothing => db
    case WorkerSeen(worker, row) => SeenWorker(db, worker, row)
    case RouteAdded(route) => RegisterProxyRoute(db, route)
    case ReleaseAdded(hash, row) => ParserReleases.AddRelease(db, hash, row)
    case PointerMoved(source, hash, action, now) => ParserReleases.Changed(db, source, hash, action, now)
    case ResultsPurged(ids, today) => Purge(db, ids)
  }

  /** The rows the change writes. */
  ghost function Commit(cfg: Config, db: Db, c: Change): Db
    requires Permitted(cfg, db, c)
  {
    if Queueing(c) then QueueCommit(cfg, db, c)
    else if Holding(c) then LeaseCommit(cfg, db, c)
    else if Finishing(c) then EndCommit(db, c)
    else if Budgeting(c) then BudgetCommit(cfg, db, c)
    else RegistryCommit(db, c)
  }

  // ----- a permitted change, group by group

  lemma QueueCommits(cfg: Config, db: Db, c: Change)
    requires Permitted(cfg, db, c) && Queueing(c)
    ensures c.TaskAdded? || c.ReplayAdded? ==> c.id !in db.tasks && Blank(c.task) && NewKey(db, c.task.key)
    ensures c.ReplayAdded? ==> c.origin in db.results && db.results[c.origin].captureId in db.captures
    ensures c.Reaped? ==> forall id :: id in c.rows ==> Expired(db, c.now, id)
    ensures Commit(cfg, db, c) == QueueCommit(cfg, db, c)
  {
    hide LeasePermitted, LeaseCommit, EndPermitted, EndCommit, BudgetPermitted, BudgetCommit, RegistryPermitted, RegistryCommit;
    hide QueueCommit, Blank, NewKey, Expired;
  }

  lemma LeaseCommits(cfg: Config, db: Db, c: Change)
    requires Permitted(cfg, db, c) && Holding(c)
    ensures c.id in db.tasks && (c.LeaseTaken? || Runs(db, c.id))
    ensures c.LeaseTaken? ==> Claimable(cfg.queue, db.tasks[c.id]) && c.token !in db.issued
    ensures c.AttemptClosed? ==> !c.finish.state.Running?
    ensures Commit(cfg, db, c) == LeaseCommit(cfg, db, c)
  {
    hide QueuePermitted, QueueCommit, EndPermitted, EndCommit, BudgetPermitted, BudgetCommit, RegistryPermitted, RegistryCommit;
    hide LeaseCommit, OpenUnder, Current, Claimable;
  }

  lemma EndCommits(cfg: Config, db: Db, c: Change)
    requires Permitted(cfg, db, c) && Finishing(c)
    ensures Runs(db, c.id) && (c.ReplayAccepted? ==> c.id in db.bindings)
    ensures c.CaptureAccepted? || c.DiscoveryAccepted? ==> c.outcome.captureId !in db.captures
    ensures c.DiscoveryAccepted? ==> c.id !in db.discoveries
    ensures Commit(cfg, db, c) == EndCommit(db, c)
  {
    hide QueuePermitted, QueueCommit, LeasePermitted, LeaseCommit, BudgetPermitted, BudgetCommit, RegistryPermitted, RegistryCommit;
    hide EndCommit, OpenUnder, Current, Calendar.TwoYearsAfter, Calendar.Instant;
  }

  lemma BudgetCommits(cfg: Config, db: Db, c: Change)
    requires Permitted(cfg, db, c) && Budgeting(c)
    ensures !c.SourceTouched? ==> Runs(db, c.id) && c.source in cfg.budgets && db.tasks[c.id].source == c.source
    ensures Commit(cfg, db, c) == BudgetCommit(cfg, db, c)
  {
    hide QueuePermitted, QueueCommit, LeasePermitted, LeaseCommit, EndPermitted, EndCommit, RegistryPermitted, RegistryCommit;
    hide BudgetCommit, OpenUnder, Current, MayStart, Overruns, Uncharged, Decide, SourceStateAt;
  }

  lemma RegistryCommits(cfg: Config, db: Db, c: Change)
    requires Permitted(cfg, db, c) && Registering(c)
    ensures c.PointerMoved? ==> c.hash in db.releases && db.releases[c.hash].source == c.source && !db.releases[c.hash].status.Revoked?
    ensures Commit(cfg, db, c) == RegistryCommit(db, c)
  {
    hide QueuePermitted, QueueCommit, LeasePermitted, LeaseCommit, EndPermitted, EndCommit, BudgetPermitted, BudgetCommit;
    hide RegistryCommit, PurgeRow, Registered;
  }

  function BindingOf(db: Db, origin: TaskId): Binding
    requires origin in db.results && db.results[origin].captureId in db.captures
  {
    var result := db.results[origin];
    Binding(result.captureId, db.captures[result.captureId].fetchedAt, result.expiresAt)
  }

  /** The change carries the step's own clock reading and subject. */
  predicate Traces(step: Step, c: Change) {
    match c
    case LeaseTaken(worker, id, pin, token, at) =>
      step.ClaimStep? && step.worker == worker && step.pick == Some(id) && step.token == token && step.current == at
    case LeaseRenewed(id, expires, at) => step.HeartbeatStep? && step.lease.taskId == id && step.clock.current == at
    case AttemptRefunded(id, f, at) =>
      step.DeferStep? && step.code.BudgetExhausted? && step.lease.taskId == id && f.availableAt == Some(step.availableAt)
    case AttemptClosed(id, f, at) =>
      (step.SucceedStep? || step.FailStep? || step.DeferStep?) && step.lease.taskId == id && step.clock.current == at
      && (step.SucceedStep? ==> f.state.Succeeded? && !f.retry)
      && (step.DeferStep? ==> f.state.Deferred? && !f.retry && f.availableAt == Some(step.availableAt))
      && (step.FailStep? ==> f.state.Failed?)
    case CaptureAccepted(id, outcome, expiresAt, at) =>
      step.CompleteStep? && step.lease.taskId == id && step.outcome == outcome && step.clock.current == at
    case DiscoveryAccepted(id, row, outcome, at) => step.CompleteStep? && step.lease.taskId == id && step.outcome == outcome
    case ReplayAccepted(id, content, missing, at) => step.CompleteReplayStep? && step.lease.taskId == id && step.content == content
    case HandedOff(id, key, handoff, at) => step.HandoffStep? && step.lease.taskId == id
    case StartGranted(source, id, requested, now) =>
      step.ReserveStep? && step.worker.source == source && step.lease.taskId == id && step.requested == requested && step.now == now
    case OutcomeObserved(source, id, permit, c, bytes, d, now) =>
      step.OutcomeStep? && step.worker.source == source && step.lease.taskId == id && step.permit == permit
      && step.classification == c && step.bytes == bytes && step.now == now
    case SourceTouched(source, now) =>
      (step.SnapshotStep? && step.source == source && step.now == now)
      || (step.ReserveStep? && step.worker.source == source && step.now == now)
    case PointerMoved(source, hash, action, now) =>
      step.ChangeStep? && step.source == source && step.hash == hash && step.action == action
    case ReleaseAdded(hash, row) => step.RegisterReleaseStep? && step.hash == hash
    case ResultsPurged(ids, today) => step.PurgeStep? && step.ids == ids && step.today == today
    case ReplayAdded(id, t, origin) => step.PlanReplayStep? && step.id == id && step.origin == origin
    case TaskAdded(id, t) => step.EnqueueStep? && step.id == id
    case Reaped(rows, now) => step.ReapStep? && rows == RowSet(step.rows) && step.now == now
    case HeldReleased(source, batch, now) => step.ReleaseHeldStep?
    case WorkerSeen(worker, row) => step.RegisterWorkerStep?
    case RouteAdded(route) => step.ProxyRouteStep?
    case Nothing => true
  }

  // ----- each transaction has its change

  lemma LeasedFacts(db: Db, worker: WorkerIdentity, lease: ScrapeLease, clock: Clock)
    requires Fenced(db) && Leased(db, worker, lease, clock)
    ensures Runs(db, lease.taskId) && Current(db, lease.taskId)
    ensures lease.attemptNumber == db.tasks[lease.taskId].attemptCount
    ensures db.tasks[lease.taskId].taskClass == lease.taskClass && db.tasks[lease.taskId].releaseHash == lease.releaseHash
  {
    NewestAttempt(db, lease.taskId);
  }

  lemma ClaimChange(cfg: Config, db: Db, worker: WorkerIdentity, classes: set<TaskClass>, locked: set<TaskId>,
                    pick: Option<TaskId>, token: Token, now: Time, current: Time) returns (c: Change)
    requires ClaimRow(cfg, db, worker, classes, locked, now, pick) && token !in db.issued
    ensures Permitted(cfg, db, c) && Commit(cfg, db, c) == Claim(cfg, db, worker, pick, token, now, current).0
    ensures Traces(ClaimStep(worker, classes, locked, pick, token, now, current), c)
  {
    hide QueuePermitted, QueueCommit, EndPermitted, EndCommit, BudgetPermitted, BudgetCommit, RegistryPermitted, RegistryCommit;
    hide TakeLease, ClaimedTask, LeaseOf, HealthyWorker;
    NothingPermitted(cfg, db, ClaimStep(worker, classes, locked, pick, token, now, current));
    if Claim(cfg, db, worker, pick, token, now, current).1.None? {
      c := Nothing;
    } else {
      var t := db.tasks[pick.value];
      var pin := if t.taskClass.DiscoveryCapture? then Pointer(t.releaseHash, t.activationEpoch) else db.pointers[worker.source];
      c := LeaseTaken(worker, pick.value, pin, token, current);
    }
  }

  lemma HeartbeatChange(cfg: Config, db: Db, worker: WorkerIdentity, lease: ScrapeLease, clock: Clock) returns (c: Change)
    requires Fenced(db)
    ensures Permitted(cfg, db, c) && Commit(cfg, db, c) == Heartbeat(cfg, db, worker, lease, clock).0
    ensures Traces(HeartbeatStep(worker, lease, clock), c)
  {
    hide QueuePermitted, QueueCommit, EndPermitted, EndCommit, BudgetPermitted, BudgetCommit, RegistryPermitted, RegistryCommit;
    hide Fenced, Leased, RenewLease, OpenUnder;
    NothingPermitted(cfg, db, HeartbeatStep(worker, lease, clock));
    var reply := Heartbeat(cfg, db, worker, lease, clock).1;
    if reply.Ok? {
      LeasedFacts(db, worker, lease, clock);
      c := LeaseRenewed(lease.taskId, reply.value.expiresAt, clock.current);
    } else {
      c := Nothing;
    }
  }

  lemma FinishChange(cfg: Config, db: Db, worker: WorkerIdentity, lease: ScrapeLease, f: Finish, clock: Clock) returns (c: Change)
    requires Fenced(db) && Requested(f)
    ensures Permitted(cfg, db, c) && Commit(cfg, db, c) == FinishLease(cfg, db, worker, lease, f, clock).0
    ensures c == Nothing || (f.code.BudgetExhausted? && c == AttemptRefunded(lease.taskId, f, clock.current))
            || (!f.code.BudgetExhausted? && c == AttemptClosed(lease.taskId, f, clock.current))
  {
    hide QueuePermitted, QueueCommit, EndPermitted, EndCommit, BudgetPermitted, BudgetCommit, RegistryPermitted, RegistryCommit;
    hide Fenced, Leased, RefundAttempt, CloseAttempt, Settled, OpenUnder;
    NothingPermitted(cfg, db, SnapshotStep(Gratka, 0));
    if !FinishLease(cfg, db, worker, lease, f, clock).1.Ok? {
      c := Nothing;
    } else {
      LeasedFacts(db, worker, lease, clock);
      c := if f.code.BudgetExhausted? then AttemptRefunded(lease.taskId, f, clock.current)
           else AttemptClosed(lease.taskId, f, clock.current);
    }
  }

  lemma CompleteChange(cfg: Config, db: Db, worker: WorkerIdentity, lease: ScrapeLease, outcome: CaptureOutcome, clock: Clock) returns (c: Change)
    requires Fenced(db)
    ensures Permitted(cfg, db, c) && Commit(cfg, db, c) == Complete(db, worker, lease, outcome, clock).0
    ensures Traces(CompleteStep(worker, lease, outcome, clock), c)
  {
    hide QueuePermitted, QueueCommit, LeasePermitted, LeaseCommit, BudgetPermitted, BudgetCommit, RegistryPermitted, RegistryCommit;
    hide Fenced, Leased, AcceptCapture, CompleteDiscovery, SameCompletion, Calendar.TwoYearsAfter, Calendar.Instant, OpenUnder;
    NothingPermitted(cfg, db, CompleteStep(worker, lease, outcome, clock));
    if !OutcomeAccepted(lease, outcome, clock.now) {
      c := Nothing;
    } else if lease.taskClass.DiscoveryCapture? {
      c := DiscoveryChange(cfg, db, worker, lease, outcome, clock);
    } else if lease.taskId in db.results || !Complete(db, worker, lease, outcome, clock).1.Ok? {
      c := Nothing;
    } else {
      LeasedFacts(db, worker, lease, clock);
      var expiry := Calendar.TwoYearsAfter(outcome.fetchedAt);
      c := CaptureAccepted(lease.taskId, outcome, Calendar.Instant(expiry.value), clock.current);
    }
  }

  lemma DiscoveryChange(cfg: Config, db: Db, worker: WorkerIdentity, lease: ScrapeLease, outcome: CaptureOutcome, clock: Clock) returns (c: Change)
    requires Fenced(db) && outcome.artifactId.Some? && lease.taskClass.DiscoveryCapture?
    ensures Permitted(cfg, db, c) && Commit(cfg, db, c) == CompleteDiscovery(db, worker, lease, outcome, clock).0
    ensures Traces(CompleteStep(worker, lease, outcome, clock), c)
  {
    hide QueuePermitted, QueueCommit, LeasePermitted, LeaseCommit, BudgetPermitted, BudgetCommit, RegistryPermitted, RegistryCommit;
    hide Fenced, Leased, AcceptDiscovery, Calendar.Instant, OpenUnder;
    NothingPermitted(cfg, db, CompleteStep(worker, lease, outcome, clock));
    if lease.taskId in db.discoveries || !CompleteDiscovery(db, worker, lease, outcome, clock).1.Ok? {
      c := Nothing;
    } else {
      LeasedFacts(db, worker, lease, clock);
      c := DiscoveryAccepted(lease.taskId, Discovery(outcome.captureId, outcome.artifactId.value, outcome.contentHash), outcome, clock.current);
    }
  }

  lemma ReplayChange(cfg: Config, db: Db, worker: WorkerIdentity, lease: ScrapeLease, captureId: CaptureId, releaseHash: Hash,
                     content: string, missing: bool, clock: Clock) returns (c: Change)
    requires Fenced(db)
    ensures Permitted(cfg, db, c)
            && Commit(cfg, db, c) == CompleteReplay(db, worker, lease, captureId, releaseHash, content, missing, clock).0
    ensures Traces(CompleteReplayStep(worker, lease, captureId, releaseHash, content, missing, clock), c)
  {
    hide QueuePermitted, QueueCommit, LeasePermitted, LeaseCommit, BudgetPermitted, BudgetCommit, RegistryPermitted, RegistryCommit;
    hide Fenced, Leased, AcceptReplay, OpenUnder;
    NothingPermitted(cfg, db, CompleteReplayStep(worker, lease, captureId, releaseHash, content, missing, clock));
    if !CompleteReplay(db, worker, lease, captureId, releaseHash, content, missing, clock).1.Ok? {
      c := Nothing;
    } else {
      LeasedFacts(db, worker, lease, clock);
      c := ReplayAccepted(lease.taskId, content, missing, clock.now);
    }
  }

  lemma HandoffChange(cfg: Config, db: Db, worker: WorkerIdentity, lease: ScrapeLease, target: Portal, listing: Option<string>,
                      id: int, now: Time) returns (c: Change)
    requires Fenced(db)
    ensures Permitted(cfg, db, c) && Commit(cfg, db, c) == Redirects.Handoff(db, worker, lease, target, listing, id, now).0
    ensures Traces(HandoffStep(worker, lease, target, listing, id, now), c)
  {
    hide QueuePermitted, QueueCommit, LeasePermitted, LeaseCommit, BudgetPermitted, BudgetCommit, RegistryPermitted, RegistryCommit;
    hide Fenced, Redirects.EndLease, OpenUnder;
    NothingPermitted(cfg, db, HandoffStep(worker, lease, target, listing, id, now));
    if target == worker.source || listing.None? {
      c := Nothing;
    } else {
      var key := HandoffKey(lease.taskId, target, listing.value);
      if key in db.handoffs || !Redirects.Handoff(db, worker, lease, target, listing, id, now).1.Ok? {
        c := Nothing;
      } else {
        HandoffNewest(db, worker, lease, now);
        c := HandedOff(lease.taskId, key, id, now);
      }
    }
  }

  /** The attempt that a handoff matches is the newest one. */
  lemma HandoffNewest(db: Db, worker: WorkerIdentity, lease: ScrapeLease, now: Time)
    requires Fenced(db) && Redirects.HandoffLeased(db, worker, lease, now)
    ensures Runs(db, lease.taskId)
    ensures forall k :: Redirects.HandoffAttempt(db, worker, lease, k) ==> k == Newest(db, lease.taskId)
  {
    hide OpenUnder, TaskSound, AttemptSound;
    NewestAttempt(db, lease.taskId);
    TokenFindsNewest(db, lease.taskId);
    NewestToken(db, lease.taskId);
    forall k | Redirects.HandoffAttempt(db, worker, lease, k) ensures k == Newest(db, lease.taskId) {
      assert db.attempts[k].token == db.attempts[Newest(db, lease.taskId)].token;
    }
  }

  lemma NewestToken(db: Db, id: TaskId)
    requires Runs(db, id)
    ensures db.tasks[id].leaseToken == Some(db.attempts[Newest(db, id)].token)
  {
  }

  lemma AdmittedFacts(db: Db, worker: WorkerIdentity, lease: ScrapeLease, now: Time)
    requires Fenced(db) && Admitted(db, worker, lease, now)
    ensures Runs(db, lease.taskId) && Current(db, lease.taskId) && db.tasks[lease.taskId].source == worker.source
    ensures AttemptOf(db, lease.token) == Some(Newest(db, lease.taskId))
  {
    hide AttemptOf, TaskSound, AttemptSound;
    NewestAttempt(db, lease.taskId);
    AdmittedRuns(db, worker, lease, now);
  }

  lemma ReserveChange(cfg: Config, db: Db, worker: WorkerIdentity, lease: ScrapeLease, requested: int, now: Time) returns (c: Change)
    requires Fenced(db)
    ensures Permitted(cfg, db, c) && Commit(cfg, db, c) == ReserveStart(cfg, db, worker, lease, requested, now).0
    ensures Traces(ReserveStep(worker, lease, requested, now), c)
  {
    hide QueuePermitted, QueueCommit, LeasePermitted, LeaseCommit, EndPermitted, EndCommit, RegistryPermitted, RegistryCommit;
    hide Fenced, Admitted, AttemptOf, Grant, MayStart, SourceStateAt, Refusal, ValueOr, TouchSource, OpenUnder;
    NothingPermitted(cfg, db, ReserveStep(worker, lease, requested, now));
    if !ReserveStart(cfg, db, worker, lease, requested, now).1.Ok? {
      c := Nothing;
    } else {
      AdmittedFacts(db, worker, lease, now);
      var k := Newest(db, lease.taskId);
      if !db.attempts[k].route.Unassigned? {
        c := Nothing;
      } else if !MayStart(cfg.budgets[worker.source], SourceStateAt(db, worker.source, now), db.tasks[lease.taskId], now) {
        c := SourceTouched(worker.source, now);
      } else {
        c := StartGranted(worker.source, lease.taskId, requested, now);
      }
    }
  }

  lemma OutcomeChange(cfg: Config, db: Db, worker: WorkerIdentity, lease: ScrapeLease, permit: NetworkPermit,
                      cl: Classification, bytes: int, retryAfter: Option<int>, now: Time) returns (c: Change)
    requires Fenced(db)
    ensures Permitted(cfg, db, c) && Commit(cfg, db, c) == RecordOutcome(cfg, db, worker, lease, permit, cl, bytes, retryAfter, now).0
    ensures Traces(OutcomeStep(worker, lease, permit, cl, bytes, retryAfter, now), c)
    ensures RecordOutcome(cfg, db, worker, lease, permit, cl, bytes, retryAfter, now).1.Ok? ==>
              c == OutcomeObserved(worker.source, lease.taskId, permit, cl, bytes,
                                   RecordOutcome(cfg, db, worker, lease, permit, cl, bytes, retryAfter, now).1.value, now)
  {
    hide QueuePermitted, QueueCommit, LeasePermitted, LeaseCommit, EndPermitted, EndCommit, RegistryPermitted, RegistryCommit;
    hide Fenced, Admitted, AttemptOf, Observe, SourceStateAt, Overruns, Uncharged, Decide, OpenUnder;
    NothingPermitted(cfg, db, OutcomeStep(worker, lease, permit, cl, bytes, retryAfter, now));
    var reply := RecordOutcome(cfg, db, worker, lease, permit, cl, bytes, retryAfter, now).1;
    if !reply.Ok? {
      c := Nothing;
    } else {
      AdmittedFacts(db, worker, lease, now);
      assert Waits(retryAfter);
      c := OutcomeObserved(worker.source, lease.taskId, permit, cl, bytes, reply.value, now);
    }
  }

  /** The guards of `record_outcome` up to the one on successes, each readable before the call: a current lease,
      a granted permit that matches the open attempt, no outcome yet, and room in the billing cycle. */
  ghost predicate OutcomeAllowed(cfg: Config, db: Db, worker: WorkerIdentity, lease: ScrapeLease, permit: NetworkPermit,
                                 bytes: int, retryAfter: Option<int>, now: Time) {
    permit.granted && !permit.route.Unassigned? && 0 <= bytes <= 2_000_000 && worker.source in cfg.budgets && Waits(retryAfter)
    && Admitted(db, worker, lease, now) && Newest(db, lease.taskId) in db.attempts
    && var a := db.attempts[Newest(db, lease.taskId)];
       a.route == permit.route && a.routeId == permit.routeId && a.classification.None?
       && !Overruns(cfg, db, Newest(db, lease.taskId), permit, bytes, now)
  }

  /** An outcome is accepted exactly under these guards and, for a success, while the day's counter has fewer
      successes than starts; the reply is then the policy's decision. */
  lemma OutcomeAcceptedExactly(cfg: Config, db: Db, worker: WorkerIdentity, lease: ScrapeLease, permit: NetworkPermit,
                               c: Classification, bytes: int, retryAfter: Option<int>, now: Time)
    requires Fenced(db)
    ensures var s := SourceStateAt(db, worker.source, now);
            var reply := RecordOutcome(cfg, db, worker, lease, permit, c, bytes, retryAfter, now).1;
            (reply.Ok? <==> OutcomeAllowed(cfg, db, worker, lease, permit, bytes, retryAfter, now)
                            && (c.Success? ==> s.successCount < s.attemptCount))
            && (reply.Ok? ==> reply.value == Decide(permit.route, c, now, s.directDenialCount, retryAfter))
    ensures !RecordOutcome(cfg, db, worker, lease, permit, c, bytes, retryAfter, now).1.Ok? ==>
              RecordOutcome(cfg, db, worker, lease, permit, c, bytes, retryAfter, now).0 == db
  {
    hide Fenced, Admitted, AttemptOf, Observe, SourceStateAt, Overruns, Decide, OpenUnder;
    if Admitted(db, worker, lease, now) {
      AdmittedFacts(db, worker, lease, now);
    }
  }

  lemma EnqueueChange(cfg: Config, db: Db, id: TaskId, source: Portal, snapshotId: int, url: Option<Url>, taskClass: TaskClass,
                      release: Option<Hash>, now: Time) returns (c: Change)
    ensures Permitted(cfg, db, c) && Commit(cfg, db, c) == Enqueue(db, id, source, snapshotId, url, taskClass, release, now).0
    ensures Traces(EnqueueStep(id, source, snapshotId, url, taskClass, release, now), c)
  {
    hide LeasePermitted, LeaseCommit, EndPermitted, EndCommit, BudgetPermitted, BudgetCommit, RegistryPermitted, RegistryCommit;
    hide AddTask, HasKey;
    NothingPermitted(cfg, db, EnqueueStep(id, source, snapshotId, url, taskClass, release, now));
    var selected := Selected(db, source, taskClass, release);
    if selected.None? || url.None? {
      c := Nothing;
    } else {
      var pin := selected.value;
      var key := IdentityKey(source, snapshotId, url.value, taskClass, pin.releaseHash, pin.epoch);
      if (exists other :: HasKey(db, key, other)) || id in db.tasks {
        c := Nothing;
      } else {
        c := TaskAdded(id, NewTask(source, snapshotId, url.value, taskClass, pin.releaseHash, pin.epoch, key, now));
      }
    }
  }

  lemma PlanChange(cfg: Config, db: Db, id: TaskId, source: Portal, release: Hash, epoch: int, origin: TaskId, url: Url, now: Time)
    returns (c: Change)
    ensures Permitted(cfg, db, c) && Commit(cfg, db, c) == PlanReplay(db, id, source, release, epoch, origin, url, now).0
    ensures Traces(PlanReplayStep(id, source, release, epoch, origin, url, now), c)
  {
    hide LeasePermitted, LeaseCommit, EndPermitted, EndCommit, BudgetPermitted, BudgetCommit, RegistryPermitted, RegistryCommit;
    hide AddReplay, HasKey;
    NothingPermitted(cfg, db, PlanReplayStep(id, source, release, epoch, origin, url, now));
    if !PlanReplay(db, id, source, release, epoch, origin, url, now).1.Ok? {
      c := Nothing;
    } else {
      var capture := db.captures[db.results[origin].captureId];
      c := ReplayAdded(id, NewTask(source, capture.snapshotId, url, ArtifactRecovery, release, epoch,
                                   ReplayKey(source, capture.contentHash, release), now), origin);
    }
  }

  /** The transactions that end a lease by hand. */
  lemma EndingChange(cfg: Config, db: Db, step: Step) returns (c: Change)
    requires Fenced(db) && (step.SucceedStep? || step.FailStep? || step.DeferStep?)
    ensures Permitted(cfg, db, c) && Commit(cfg, db, c) == Apply(cfg, db, step) && Traces(step, c)
  {
    hide Fenced, Permitted, Commit, FinishLease, Traces, ApplyOutside, ApplyQueue, Heartbeat, Complete, CompleteReplay, Redirects.Handoff,
         ReserveStart, RecordOutcome;
    NothingPermitted(cfg, db, step);
    c := Nothing;
    var asked := AskedFinish(step);
    if asked.Some? {
      c := FinishChange(cfg, db, step.worker, step.lease, asked.value, step.clock);
      FinishTraces(step, c);
    }
  }

  /** The finish that `succeed`, `fail` or `defer` asks for, where its code is one it takes. */
  function AskedFinish(step: Step): (asked: Option<Finish>)
    requires step.SucceedStep? || step.FailStep? || step.DeferStep?
    ensures asked.Some? ==> Requested(asked.value)
  {
    match step
    case SucceedStep(worker, lease, code, bytes, clock) =>
      if code in {Downloaded, Partial, ArtifactUnavailable} then Some(Finish(code, Succeeded, bytes, false, None)) else None
    case FailStep(worker, lease, code, clock) =>
      if code in {TransportError, ParserError, InvalidTarget, ArtifactUnavailable}
      then Some(Finish(code, Failed, 0, code.TransportError?, None)) else None
    case DeferStep(worker, lease, code, availableAt, clock) =>
      if code in {PortalDenied, SourceCooldown, BudgetExhausted} && availableAt > clock.now
      then Some(Finish(code, Deferred, 0, false, Some(availableAt))) else None
  }

  lemma FinishTraces(step: Step, c: Change)
    requires step.SucceedStep? || step.FailStep? || step.DeferStep?
    requires AskedFinish(step).Some?
    requires var f := AskedFinish(step).value;
             c == Nothing || (f.code.BudgetExhausted? && c == AttemptRefunded(step.lease.taskId, f, step.clock.current))
             || (!f.code.BudgetExhausted? && c == AttemptClosed(step.lease.taskId, f, step.clock.current))
    ensures Traces(step, c)
  {
  }

  lemma LeaseStepChange(cfg: Config, db: Db, step: Step) returns (c: Change)
    requires Fenced(db) && LeaseStep(step)
    ensures Permitted(cfg, db, c) && Commit(cfg, db, c) == Apply(cfg, db, step) && Traces(step, c)
  {
    hide Fenced, Permitted, Commit, Traces, ApplyOutside, ApplyQueue, Heartbeat, Succeed, Fail, Defer, Complete, CompleteReplay,
         Redirects.Handoff, ReserveStart, RecordOutcome;
    match step
    case HeartbeatStep(worker, lease, clock) => c := HeartbeatChange(cfg, db, worker, lease, clock);
    case SucceedStep(_, _, _, _, _) => c := EndingChange(cfg, db, step);
    case FailStep(_, _, _, _) => c := EndingChange(cfg, db, step);
    case DeferStep(_, _, _, _, _) => c := EndingChange(cfg, db, step);
    case CompleteStep(worker, lease, outcome, clock) => c := CompleteChange(cfg, db, worker, lease, outcome, clock);
    case CompleteReplayStep(worker, lease, captureId, releaseHash, content, missing, clock) =>
      c := ReplayChange(cfg, db, worker, lease, captureId, releaseHash, content, missing, clock);
    case HandoffStep(worker, lease, target, listing, id, now) => c := HandoffChange(cfg, db, worker, lease, target, listing, id, now);
    case ReserveStep(worker, lease, requested, now) => c := ReserveChange(cfg, db, worker, lease, requested, now);
    case OutcomeStep(worker, lease, permit, cl, bytes, retryAfter, now) =>
      c := OutcomeChange(cfg, db, worker, lease, permit, cl, bytes, retryAfter, now);
  }

  lemma NothingPermitted(cfg: Config, db: Db, step: Step)
    ensures Permitted(cfg, db, Nothing) && Commit(cfg, db, Nothing) == db && Traces(step, Nothing)
  {
  }

  lemma RegisterChange(cfg: Config, db: Db, hash: Hash, source: Portal, provenance: string) returns (c: Change)
    ensures Permitted(cfg, db, c) && Commit(cfg, db, c) == ParserReleases.Register(db, hash, source, provenance).0
    ensures Traces(RegisterReleaseStep(hash, source, provenance), c)
  {
    hide QueuePermitted, QueueCommit, LeasePermitted, LeaseCommit, EndPermitted, EndCommit, BudgetPermitted, BudgetCommit;
    hide ParserReleases.AddRelease;
    c := if hash !in db.releases then ReleaseAdded(hash, Release(source, provenance, Draft)) else Nothing;
  }

  lemma AllowedRelease(db: Db, source: Portal, hash: Hash, action: ChangeAction, expected: Option<int>, eligible: bool, health: int, now: Time)
    requires hash in db.releases && ParserReleases.ChangeAllowed(db, source, hash, action, expected, eligible, health, now)
    ensures db.releases[hash].source == source && !db.releases[hash].status.Revoked?
  {
    hide ParserReleases.Deployable, ParserReleases.CurrentEpoch;
  }

  lemma PointerChange(cfg: Config, db: Db, source: Portal, hash: Hash, action: ChangeAction, expected: Option<int>,
                      eligible: bool, health: int, now: Time) returns (c: Change)
    ensures Permitted(cfg, db, c)
            && Commit(cfg, db, c) == ParserReleases.MovePointer(db, source, hash, action, expected, eligible, health, now).0
    ensures Traces(ChangeStep(source, hash, action, expected, eligible, health, now), c)
  {
    hide QueuePermitted, QueueCommit, LeasePermitted, LeaseCommit, EndPermitted, EndCommit, BudgetPermitted, BudgetCommit;
    hide ParserReleases.Changed, ParserReleases.ChangeAllowed, PurgeRow, Purge;
    if hash in db.releases && ParserReleases.ChangeAllowed(db, source, hash, action, expected, eligible, health, now) {
      AllowedRelease(db, source, hash, action, expected, eligible, health, now);
      c := PointerMoved(source, hash, action, now);
    } else {
      c := Nothing;
    }
  }

  lemma WorkerChange(cfg: Config, db: Db, worker: WorkerIdentity, releases: set<Hash>, healthy: bool, now: Time) returns (c: Change)
    ensures Permitted(cfg, db, c) && Commit(cfg, db, c) == RegisterWorker(db, worker, releases, healthy, now).0
    ensures Traces(RegisterWorkerStep(worker, releases, healthy, now), c)
  {
    hide QueuePermitted, QueueCommit, LeasePermitted, LeaseCommit, EndPermitted, EndCommit, BudgetPermitted, BudgetCommit;
    hide SeenWorker, Registered;
    c := if RegisterWorker(db, worker, releases, healthy, now).1.Ok?
         then WorkerSeen(worker, Worker(worker.source, worker.deployment, now, releases, healthy)) else Nothing;
  }

  lemma PurgeChange(cfg: Config, db: Db, ids: set<TaskId>, today: Calendar.Moment) returns (c: Change)
    ensures Permitted(cfg, db, c) && Traces(PurgeStep(ids, today), c)
    ensures Commit(cfg, db, c) == Apply(cfg, db, PurgeStep(ids, today))
  {
    hide QueuePermitted, QueueCommit, LeasePermitted, LeaseCommit, EndPermitted, EndCommit, BudgetPermitted, BudgetCommit;
    hide Purge, PurgeRow, ApplyLease, ApplyQueue;
    c := if forall id :: id in ids ==> PurgeRow(db, today, id) then ResultsPurged(ids, today) else Nothing;
  }

  lemma FreeChange(cfg: Config, db: Db, step: Step) returns (c: Change)
    requires step.ProxyRouteStep? || step.SnapshotStep?
    ensures Permitted(cfg, db, c) && Commit(cfg, db, c) == Apply(cfg, db, step) && Traces(step, c)
  {
    hide TouchSource, RegisterProxyRoute, ApplyLease, ApplyQueue;
    c := if step.ProxyRouteStep? then RouteAdded(step.route) else SourceTouched(step.source, step.now);
  }

  lemma OutsideChange(cfg: Config, db: Db, step: Step) returns (c: Change)
    requires OutsideStep(step)
    ensures Permitted(cfg, db, c) && Commit(cfg, db, c) == Apply(cfg, db, step) && Traces(step, c)
  {
    hide Permitted, Commit, Traces, ApplyLease, ApplyQueue, ParserReleases.MovePointer, ParserReleases.Register, Purge, PurgeRow, TouchSource,
         RegisterWorker, RegisterProxyRoute;
    match step
    case RegisterWorkerStep(worker, releases, healthy, now) => c := WorkerChange(cfg, db, worker, releases, healthy, now);
    case ProxyRouteStep(route) => c := FreeChange(cfg, db, step);
    case SnapshotStep(source, now) => c := FreeChange(cfg, db, step);
    case RegisterReleaseStep(hash, source, provenance) => c := RegisterChange(cfg, db, hash, source, provenance);
    case ChangeStep(source, hash, action, expected, eligible, health, now) =>
      c := PointerChange(cfg, db, source, hash, action, expected, eligible, health, now);
    case PurgeStep(ids, today) => c := PurgeChange(cfg, db, ids, today);
  }

  /** Every transaction, on every reachable database, commits one permitted change or nothing. */
  lemma StepCommits(cfg: Config, db: Db, step: Step) returns (c: Change)
    requires Fenced(db)
    ensures Permitted(cfg, db, c) && Apply(cfg, db, step) == Commit(cfg, db, c) && Traces(step, c)
  {
    hide Fenced, Permitted, Commit, Traces, ApplyLease, ApplyOutside, Enqueue, PlanReplay, Claim, ClaimRow, ReleaseHeld, Reap, ReapRows;
    NothingPermitted(cfg, db, step);
    if LeaseStep(step) {
      c := LeaseStepChange(cfg, db, step);
      return;
    }
    if OutsideStep(step) {
      c := OutsideChange(cfg, db, step);
      return;
    }
    c := Nothing;
    match step
    case EnqueueStep(id, source, snapshotId, url, taskClass, release, now) =>
      c := EnqueueChange(cfg, db, id, source, snapshotId, url, taskClass, release, now);
    case PlanReplayStep(id, source, hash, epoch, origin, url, now) =>
      c := PlanChange(cfg, db, id, source, hash, epoch, origin, url, now);
    case ReleaseHeldStep(source, batch, now) => c := BatchChange(cfg, db, step);
    case ReapStep(rows, limit, locked, now) =>
      if ReapRows(db, now, limit, locked, rows) { c := BatchChange(cfg, db, step); }
    case ClaimStep(worker, classes, locked, pick, token, now, current) =>
      if ClaimRow(cfg, db, worker, classes, locked, now, pick) && token !in db.issued {
        c := ClaimChange(cfg, db, worker, classes, locked, pick, token, now, current);
      }
  }

  lemma BatchChange(cfg: Config, db: Db, step: Step) returns (c: Change)
    requires step.ReleaseHeldStep? || (step.ReapStep? && ReapRows(db, step.now, step.limit, step.locked, step.rows))
    ensures Permitted(cfg, db, c) && Commit(cfg, db, c) == Apply(cfg, db, step) && Traces(step, c)
  {
    hide LeasePermitted, LeaseCommit, EndPermitted, EndCommit, BudgetPermitted, BudgetCommit, RegistryPermitted, RegistryCommit;
    hide ReleaseHeld, Reap, ReapRows, ApplyLease, ApplyOutside;
    if step.ReleaseHeldStep? {
      c := HeldReleased(step.source, step.batch, step.now);
    } else {
      RowsExpired(db, step.now, step.limit, step.locked, step.rows);
      c := Reaped(RowSet(step.rows), step.now);
    }
  }
}
