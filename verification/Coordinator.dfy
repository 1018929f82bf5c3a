/** The coordinator as one transition system: every transaction of the queue, the budget, the release
    registry, the redirects and the retention job is one atomic step over the shared database. */
module Coordinator {
  import opened Options
  import opened Contracts
  import opened ScrapeQueue
  import opened SourceBudget
  import ParserReleases
  import Redirects
  import Calendar

  /** A step carries the request, the clock readings, and what the database or the random source
      answers: query rows, fresh identifiers, verdicts of parts outside the model. */
  datatype Step =
    | RegisterWorkerStep(worker: WorkerIdentity, releases: set<Hash>, healthy: bool, now: Time)
    | EnqueueStep(id: TaskId, source: Portal, snapshotId: int, url: Option<Url>, taskClass: TaskClass, release: Option<Hash>, now: Time)
    | PlanReplayStep(id: TaskId, source: Portal, hash: Hash, epoch: int, origin: TaskId, replayUrl: Url, now: Time)
    | ReleaseHeldStep(source: Portal, batch: set<TaskId>, now: Time)
    | ReapStep(rows: seq<TaskId>, limit: int, locked: set<TaskId>, now: Time)
    | ClaimStep(worker: WorkerIdentity, classes: set<TaskClass>, locked: set<TaskId>, pick: Option<TaskId>, token: Token,
                now: Time, current: Time)
    | HeartbeatStep(worker: WorkerIdentity, lease: ScrapeLease, clock: Clock)
    | SucceedStep(worker: WorkerIdentity, lease: ScrapeLease, code: Code, bytes: int, clock: Clock)
    | FailStep(worker: WorkerIdentity, lease: ScrapeLease, code: Code, clock: Clock)
    | DeferStep(worker: WorkerIdentity, lease: ScrapeLease, code: Code, availableAt: Time, clock: Clock)
    | CompleteStep(worker: WorkerIdentity, lease: ScrapeLease, outcome: CaptureOutcome, clock: Clock)
    | CompleteReplayStep(worker: WorkerIdentity, lease: ScrapeLease, captureId: CaptureId, releaseHash: Hash, content: string,
                         missingFields: bool, clock: Clock)
    | HandoffStep(worker: WorkerIdentity, lease: ScrapeLease, target: Portal, listing: Option<string>, handoffId: int, now: Time)
    | ReserveStep(worker: WorkerIdentity, lease: ScrapeLease, requested: int, now: Time)
    | OutcomeStep(worker: WorkerIdentity, lease: ScrapeLease, permit: NetworkPermit, classification: Classification, bytes: int,
                  retryAfter: Option<int>, now: Time)
    | ProxyRouteStep(route: RouteId)
    | SnapshotStep(source: Portal, now: Time)
    | RegisterReleaseStep(hash: Hash, source: Portal, provenance: string)
    | ChangeStep(source: Portal, hash: Hash, action: ChangeAction, expected: Option<int>, eligible: bool, health: int, now: Time)
    | PurgeStep(ids: set<TaskId>, today: Calendar.Moment)

  /** Steps that present a lease. */
  predicate LeaseStep(step: Step) {
    step.HeartbeatStep? || step.SucceedStep? || step.FailStep? || step.DeferStep? || step.CompleteStep?
    || step.CompleteReplayStep? || step.HandoffStep? || step.ReserveStep? || step.OutcomeStep?
  }

  /** Steps that only move workers, routes, source counters, releases or results. */
  predicate OutsideStep(step: Step) {
    step.RegisterWorkerStep? || step.ProxyRouteStep? || step.SnapshotStep? || step.RegisterReleaseStep?
    || step.ChangeStep? || step.PurgeStep?
  }

  ghost function Apply(cfg: Config, db: Db, step: Step): Db {
    if LeaseStep(step) then ApplyLease(cfg, db, step)
    else if OutsideStep(step) then ApplyOutside(cfg, db, step)
    else ApplyQueue(cfg, db, step)
  }

  ghost function ApplyLease(cfg: Config, db: Db, step: Step): Db
    requires LeaseStep(step)
  {
    match step
    case HeartbeatStep(worker, lease, clock) => Heartbeat(cfg, db, worker, lease, clock).0
    case SucceedStep(worker, lease, code, bytes, clock) => Succeed(cfg, db, worker, lease, code, bytes, clock).0
    case FailStep(worker, lease, code, clock) => Fail(cfg, db, worker, lease, code, clock).0
    case DeferStep(worker, lease, code, availableAt, clock) => Defer(cfg, db, worker, lease, code, availableAt, clock).0
    case CompleteStep(worker, lease, outcome, clock) => Complete(db, worker, lease, outcome, clock).0
    case CompleteReplayStep(worker, lease, captureId, releaseHash, content, missingFields, clock) =>
      CompleteReplay(db, worker, lease, captureId, releaseHash, content, missingFields, clock).0
    case HandoffStep(worker, lease, target, listing, id, now) => Redirects.Handoff(db, worker, lease, target, listing, id, now).0
    case ReserveStep(worker, lease, requested, now) => ReserveStart(cfg, db, worker, lease, requested, now).0
    case OutcomeStep(worker, lease, permit, c, bytes, retryAfter, now) =>
      RecordOutcome(cfg, db, worker, lease, permit, c, bytes, retryAfter, now).0
  }

  ghost function ApplyOutside(cfg: Config, db: Db, step: Step): Db
    requires OutsideStep(step)
  {
    match step
    case RegisterWorkerStep(worker, releases, healthy, now) => RegisterWorker(db, worker, releases, healthy, now).0
    case ProxyRouteStep(route) => RegisterProxyRoute(db, route)
    case SnapshotStep(source, now) => TouchSource(db, source, now)
    case RegisterReleaseStep(hash, source, provenance) => ParserReleases.Register(db, hash, source, provenance).0
    case ChangeStep(source, hash, action, expected, eligible, health, now) =>
      ParserReleases.MovePointer(db, source, hash, action, expected, eligible, health, now).0
    case PurgeStep(ids, today) => if forall id :: id in ids ==> PurgeRow(db, today, id) then Purge(db, ids) else db
  }

  /** A query's answer that does not fit the database commits nothing: no such transaction happens. */
  ghost function ApplyQueue(cfg: Config, db: Db, step: Step): Db
    requires !LeaseStep(step) && !OutsideStep(step)
  {
    match step
    case EnqueueStep(id, source, snapshotId, url, taskClass, release, now) =>
      Enqueue(db, id, source, snapshotId, url, taskClass, release, now).0
    case PlanReplayStep(id, source, hash, epoch, origin, url, now) => PlanReplay(db, id, source, hash, epoch, origin, url, now).0
    case ReleaseHeldStep(source, batch, now) => ReleaseHeld(db, source, batch, now)
    case ReapStep(rows, limit, locked, now) =>
      if ReapRows(db, now, limit, locked, rows) then Reap(cfg, db, RowSet(rows), now) else db
    case ClaimStep(worker, classes, locked, pick, token, now, current) =>
      if ClaimRow(cfg, db, worker, classes, locked, now, pick) && token !in db.issued
      then Claim(cfg, db, worker, pick, token, now, current).0 else db
  }

  function RowSet(rows: seq<TaskId>): set<TaskId> { set id | id in rows }

  /** The database after a whole interleaving, from any start. */
  ghost function Run(cfg: Config, db: Db, steps: seq<Step>): Db
    decreases |steps|
  {
    if steps == [] then db
    else Apply(cfg, Run(cfg, db, steps[..|steps| - 1]), steps[|steps| - 1])
  }

  lemma {:induction false} RunConcat(cfg: Config, db: Db, first: seq<Step>, rest: seq<Step>)
    ensures Run(cfg, db, first + rest) == Run(cfg, Run(cfg, db, first), rest)
    decreases |rest|
  {
    hide Apply;
    if rest == [] {
      assert first + rest == first;
    } else {
      var n := |rest| - 1;
      assert (first + rest)[..|first| + n] == first + rest[..n];
      RunConcat(cfg, db, first, rest[..n]);
    }
  }

  lemma RunNothing(cfg: Config, db: Db)
    ensures Run(cfg, db, []) == db
  {
    hide Apply;
  }

  lemma RunNone(cfg: Config, db: Db, steps: seq<Step>)
    ensures Run(cfg, db, steps[..0]) == db
  {
    hide Apply;
  }

  /** One more step of a fixed run. */
  lemma RunNext(cfg: Config, db: Db, steps: seq<Step>, n: nat)
    requires n < |steps|
    ensures Run(cfg, db, steps[..n + 1]) == Apply(cfg, Run(cfg, db, steps[..n]), steps[n])
  {
    hide Apply;
    assert steps[..n + 1][..n] == steps[..n];
  }
}
