/** The rows, leases and policies that the coordinator's repositories share. */
module Contracts {
  import opened Options
  import Calendar

  datatype Portal = Gratka | Morizon | Otodom | Olx
  datatype Deployment = Nas | Vps
  datatype TaskClass = Live | ArtifactRecovery | NetworkRecovery | DiscoveryCapture
  datatype TaskState = Pending | Held | Running | Deferred | Succeeded | Failed
  datatype Route = Unassigned | Direct | Proxy
  datatype Classification = Success | ProxyInfrastructureFailure | PortalDenial | PortalResponse | TransportFailure
  datatype Code =
    | Downloaded | Partial | ArtifactUnavailable | TransportError | ParserError | InvalidTarget
    | PortalDenied | SourceCooldown | BudgetExhausted | LeaseExpired | Redirected | DiscoveryCaptured
  datatype AttemptOutcome = AttemptSucceeded | AttemptFailed | AttemptDeferred | AttemptExpired

  type Time = int       // microseconds of UTC
  type TaskId = int     // UUIDs compare as numbers
  type Token = int
  type CaptureId = int
  type RouteId = int
  type WorkerId = string
  type Hash = string
  type Url = string

  /** The clock readings of one transaction: the request's, the one taken under the row locks, and
      the one stamped on what is written.  Nothing orders them unless a statement says so. */
  datatype Clock = Clock(now: Time, checked: Time, current: Time)

  function Seconds(n: int): int { n * Calendar.SECOND }

  // ----- policies

  datatype Timing = Timing(leaseSeconds: int, heartbeatSeconds: int, maxLeaseSeconds: int,
                           workerHealthSeconds: int, maxAttempts: int)
  {
    predicate Valid() {
      1 <= heartbeatSeconds < leaseSeconds <= 300
      && leaseSeconds <= maxLeaseSeconds <= 3600
      && heartbeatSeconds * 2 <= workerHealthSeconds <= 600
      && 1 <= maxAttempts <= 32
    }
  }

  type QueuePolicy = t: Timing | t.Valid() witness Timing(60, 20, 600, 90, 8)

  datatype Limits = Limits(minimumInterval: int, dailyAttemptLimit: int, dailySuccessLimit: int)
  {
    predicate Valid() {
      0 < minimumInterval <= Seconds(3600)
      && 1 <= dailySuccessLimit <= dailyAttemptLimit <= 100_000
    }
  }

  type SourceBudgetPolicy = l: Limits | l.Valid() witness Limits(Calendar.SECOND, 1, 1)

  /** One deployment: the queue's timing, each portal's limits, and the billing cycle of a time. */
  datatype Config = Config(queue: QueuePolicy, budgets: map<Portal, SourceBudgetPolicy>, cycleOf: Time -> int)

  // ----- what crosses the worker boundary

  datatype WorkerIdentity = WorkerIdentity(workerId: WorkerId, source: Portal, deployment: Deployment)

  datatype ScrapeLease = ScrapeLease(
    taskId: TaskId, source: Portal, snapshotId: int, canonicalUrl: Url, taskClass: TaskClass,
    releaseHash: Hash, activationEpoch: int, token: Token, expiresAt: Time, attemptNumber: int)

  datatype NetworkPermit = NetworkPermit(granted: bool, availableAt: Time, route: Route, routeId: Option<RouteId>)

  /** `valid` stands for the size and field checks on the parser result inside. */
  datatype CaptureOutcome = CaptureOutcome(
    captureId: CaptureId, fetchedAt: Calendar.Moment, contentHash: Hash, sizeBytes: int,
    releaseHash: Hash, missingFields: bool, artifactId: Option<int>, valid: bool)

  // ----- rows

  /** How a task is deduplicated: the parts hashed into its idempotency key. */
  datatype IdempotencyKey =
    | LiveKey(source: Portal, snapshotId: int, url: Url)
    | PinnedKey(source: Portal, snapshotId: int, url: Url, taskClass: TaskClass, release: Hash, epoch: int)
    | ReplayKey(source: Portal, contentHash: Hash, release: Hash)

  datatype Task = Task(
    source: Portal, snapshotId: int, canonicalUrl: Url, taskClass: TaskClass,
    releaseHash: Hash, activationEpoch: int, key: IdempotencyKey,
    state: TaskState, priority: int, availableAt: Time, createdAt: Time, attemptCount: int,
    leaseOwner: Option<WorkerId>, leaseToken: Option<Token>,
    leaseStartedAt: Option<Time>, leaseExpiresAt: Option<Time>,
    finishedAt: Option<Time>, fallbackPending: bool, fallbackAt: Option<Time>)

  datatype AttemptKey = AttemptKey(task: TaskId, number: int)

  datatype Attempt = Attempt(
    token: Token, workerId: WorkerId, releaseHash: Hash, activationEpoch: int, startedAt: Time,
    finishedAt: Option<Time>, outcome: Option<AttemptOutcome>, code: Option<Code>,
    route: Route, routeId: Option<RouteId>, proxyReservedBytes: int, networkStartedAt: Option<Time>,
    classification: Option<Classification>, responseBytes: int)

  datatype Worker = Worker(source: Portal, deployment: Deployment, heartbeatAt: Time, releases: set<Hash>, healthy: bool)

  datatype ReleaseStatus = Draft | Active | Retired | Revoked
  datatype Release = Release(source: Portal, provenance: string, status: ReleaseStatus)
  datatype Pointer = Pointer(releaseHash: Hash, epoch: int)
  datatype ChangeAction = Activate | Rollback
  datatype Audit = Audit(epoch: int, previous: Option<Hash>, releaseHash: Hash, action: ChangeAction, at: Time)

  datatype Capture = Capture(snapshotId: int, fetchedAt: Calendar.Moment, contentHash: Hash)
  datatype ParserResult = ParserResult(
    captureId: CaptureId, releaseHash: Hash, activationEpoch: int, content: ResultContent, expiresAt: Time)
  /** What the stored result hash identifies. */
  datatype ResultContent = Fetched(outcome: CaptureOutcome) | Replayed(content: string)
  datatype Discovery = Discovery(captureId: CaptureId, artifactId: int, contentHash: Hash)
  datatype Binding = Binding(captureId: CaptureId, fetchedAt: Calendar.Moment, resultExpiresAt: Time)
  datatype HandoffKey = HandoffKey(task: TaskId, target: Portal, listing: string)

  datatype SourceState = SourceState(
    dayKey: int, attemptCount: int, successCount: int,
    nextStartAt: Option<Time>, cooldownUntil: Option<Time>, directDenialCount: int)
  datatype Ledger = Ledger(allocatedBytes: int, transferredBytes: int)
  datatype QuarantineKey = QuarantineKey(route: RouteId, source: Portal)

  /** History kept for statements about whole runs; no operation reads it. */
  datatype Event =
    | Claimed(task: TaskId, token: Token)
    | Refunded(task: TaskId)
    | Accepted(task: TaskId)
    | Started(source: Portal, task: TaskId, route: Route, at: Time)
    | Observed(source: Portal, task: TaskId, route: Route, classification: Classification, at: Time,
               cooldown: Option<Time>, retryDirectAt: Option<Time>)

  datatype Db = Db(
    tasks: map<TaskId, Task>,
    attempts: map<AttemptKey, Attempt>,
    workers: map<WorkerId, Worker>,
    pointers: map<Portal, Pointer>,
    releases: map<Hash, Release>,
    audits: map<Portal, seq<Audit>>,
    captures: map<CaptureId, Capture>,
    results: map<TaskId, ParserResult>,
    discoveries: map<TaskId, Discovery>,
    bindings: map<TaskId, Binding>,
    handoffs: map<HandoffKey, int>,
    sources: map<Portal, SourceState>,
    ledgers: map<int, Ledger>,
    routes: map<RouteId, bool>,
    quarantine: map<QuarantineKey, Time>,
    issued: set<Token>,   // every token ever drawn
    log: seq<Event>)

  const EMPTY := Db(map[], map[], map[], map[], map[], map[], map[], map[], map[], map[], map[],
                    map[], map[], map[], map[], {}, [])

  function AuditsOf(db: Db, source: Portal): seq<Audit> {
    if source in db.audits then db.audits[source] else []
  }

  predicate PointsAt(db: Db, source: Portal, release: Hash, epoch: int) {
    source in db.pointers && db.pointers[source] == Pointer(release, epoch)
  }

  /** `_clear_lease`. */
  function ClearLease(t: Task): Task {
    t.(leaseOwner := None, leaseToken := None, leaseStartedAt := None, leaseExpiresAt := None)
  }

  predicate Registered(db: Db, worker: WorkerIdentity) {
    worker.workerId in db.workers
    && db.workers[worker.workerId].source == worker.source
    && db.workers[worker.workerId].deployment == worker.deployment
  }
}
