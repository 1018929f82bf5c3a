/** The queue's transactions as functions of the database: what each one commits and replies.
    A transaction that replies with anything but `Ok` commits nothing. */
module ScrapeQueue {
  import opened Options
  import opened Contracts
  import opened DenialPolicy
  import Calendar

  // ----- workers and admission

  function RegisterWorker(db: Db, worker: WorkerIdentity, releases: set<Hash>, healthy: bool, now: Time): (Db, Reply<()>) {
    if worker.workerId in db.workers && !Registered(db, worker) then (db, Invalid)
    else if worker.workerId in db.workers && db.workers[worker.workerId].heartbeatAt > now then (db, Invalid)
    else (SeenWorker(db, worker, Worker(worker.source, worker.deployment, now, releases, healthy)), Ok(()))
  }

  function SeenWorker(db: Db, worker: WorkerIdentity, row: Worker): Db {
    db.(workers := db.workers[worker.workerId := row])
  }

  function Priority(c: TaskClass): int {
    match c
    case Live => 0
    case ArtifactRecovery => 10
    case NetworkRecovery => 20
    case DiscoveryCapture => 30
  }

  function NewTask(source: Portal, snapshotId: int, url: Url, taskClass: TaskClass, release: Hash, epoch: int,
                   key: IdempotencyKey, now: Time): Task {
    Task(source, snapshotId, url, taskClass, release, epoch, key,
         if taskClass.NetworkRecovery? then Held else Pending,
         Priority(taskClass), now, now, 0, None, None, None, None, None, false, None)
  }

  function IdentityKey(source: Portal, snapshotId: int, url: Url, taskClass: TaskClass, release: Hash, epoch: int): IdempotencyKey {
    if taskClass.Live? then LiveKey(source, snapshotId, url)
    else PinnedKey(source, snapshotId, url, taskClass, release, epoch)
  }

  /** The release and epoch a new task is pinned to; None where `enqueue` rejects the request. */
  function Selected(db: Db, source: Portal, taskClass: TaskClass, release: Option<Hash>): Option<Pointer> {
    if taskClass.DiscoveryCapture? then
      (if release.Some? && release.value in db.releases && db.releases[release.value].source == source
          && !db.releases[release.value].status.Revoked?
       then Some(Pointer(release.value, 1)) else None)
    else if release.Some? || source !in db.pointers then None
    else Some(db.pointers[source])
  }

  ghost predicate HasKey(db: Db, key: IdempotencyKey, id: TaskId) {
    id in db.tasks && db.tasks[id].key == key
  }

  /** `url` is the listing's canonical URL, None where the catalog checks reject the snapshot. */
  ghost function Enqueue(db: Db, id: TaskId, source: Portal, snapshotId: int, url: Option<Url>,
                         taskClass: TaskClass, release: Option<Hash>, now: Time): (Db, Reply<TaskId>) {
    var selected := Selected(db, source, taskClass, release);
    if selected.None? || url.None? then (db, Invalid)
    else
      var pin := selected.value;
      var key := IdentityKey(source, snapshotId, url.value, taskClass, pin.releaseHash, pin.epoch);
      if exists other :: HasKey(db, key, other) then
        var other :| HasKey(db, key, other);
        (db, Ok(other))
      else if id in db.tasks then (db, Conflict)
      else
        (AddTask(db, id, NewTask(source, snapshotId, url.value, taskClass, pin.releaseHash, pin.epoch, key, now)), Ok(id))
  }

  function AddTask(db: Db, id: TaskId, t: Task): Db {
    db.(tasks := db.tasks[id := t])
  }

  /** One candidate of `plan_artifact_recovery`: replay the retained artifact of an earlier result. */
  ghost function PlanReplay(db: Db, id: TaskId, source: Portal, release: Hash, epoch: int, origin: TaskId,
                            url: Url, now: Time): (Db, Reply<TaskId>) {
    if !PointsAt(db, source, release, epoch) || origin !in db.results
       || db.results[origin].captureId !in db.captures || db.results[origin].releaseHash == release then (db, Invalid)
    else
      var result := db.results[origin];
      var capture := db.captures[result.captureId];
      var key := ReplayKey(source, capture.contentHash, release);
      if (exists other :: HasKey(db, key, other)) || id in db.tasks then (db, Conflict)
      else
        (AddReplay(db, id, NewTask(source, capture.snapshotId, url, ArtifactRecovery, release, epoch, key, now),
                   Binding(result.captureId, capture.fetchedAt, result.expiresAt)),
         Ok(id))
  }

  function AddReplay(db: Db, id: TaskId, t: Task, b: Binding): Db {
    db.(tasks := db.tasks[id := t], bindings := db.bindings[id := b])
  }

  /** A recovery batch makes held tasks claimable. */
  function ReleaseHeld(db: Db, source: Portal, batch: set<TaskId>, now: Time): Db {
    db.(tasks := map id | id in db.tasks ::
      if id in batch && db.tasks[id].state.Held? && db.tasks[id].source == source
      then db.tasks[id].(state := Pending, availableAt := now)
      else db.tasks[id])
  }

  // ----- leases

  /** `_leased`: the row is running under this very lease, and the portal's pointer has not moved. */
  predicate Leased(db: Db, worker: WorkerIdentity, lease: ScrapeLease, clock: Clock) {
    Registered(db, worker)
    && lease.taskId in db.tasks
    && var t := db.tasks[lease.taskId];
       t.source == worker.source && t.state.Running?
       && t.leaseOwner == Some(worker.workerId) && t.leaseToken == Some(lease.token)
       && t.leaseExpiresAt.Some? && t.leaseExpiresAt.value > clock.now && t.leaseExpiresAt.value > clock.checked
       && t.taskClass == lease.taskClass && t.snapshotId == lease.snapshotId
       && t.canonicalUrl == lease.canonicalUrl && t.attemptCount == lease.attemptNumber
       && lease.source == t.source && lease.releaseHash == t.releaseHash && lease.activationEpoch == t.activationEpoch
       && (t.taskClass.DiscoveryCapture? || PointsAt(db, worker.source, t.releaseHash, t.activationEpoch))
  }

  predicate Claimable(queue: QueuePolicy, t: Task) {
    (t.state.Pending? || t.state.Deferred?) && t.attemptCount < queue.maxAttempts
  }

  predicate ClaimCandidate(cfg: Config, db: Db, worker: WorkerIdentity, classes: set<TaskClass>, locked: set<TaskId>,
                           now: Time, id: TaskId) {
    id in db.tasks && id !in locked
    && var t := db.tasks[id];
       t.source == worker.source && t.taskClass in classes
       && (worker.source in db.pointers || t.taskClass.DiscoveryCapture?)
       && Claimable(cfg.queue, t) && t.availableAt <= now
  }

  predicate ClaimBefore(db: Db, a: TaskId, b: TaskId)
    requires a in db.tasks && b in db.tasks
  {
    var s, t := db.tasks[a], db.tasks[b];
    s.priority < t.priority || (s.priority == t.priority
    && (s.availableAt < t.availableAt || (s.availableAt == t.availableAt
    && (s.createdAt < t.createdAt || (s.createdAt == t.createdAt && a < b)))))
  }

  /** The answer of the claim query, which skips the rows other transactions have `locked`. */
  ghost predicate ClaimRow(cfg: Config, db: Db, worker: WorkerIdentity, classes: set<TaskClass>, locked: set<TaskId>,
                           now: Time, pick: Option<TaskId>) {
    match pick
    case None => forall id :: !ClaimCandidate(cfg, db, worker, classes, locked, now, id)
    case Some(first) =>
      ClaimCandidate(cfg, db, worker, classes, locked, now, first)
      && forall id :: ClaimCandidate(cfg, db, worker, classes, locked, now, id) && id != first ==> ClaimBefore(db, first, id)
  }

  predicate HealthyWorker(queue: QueuePolicy, db: Db, worker: WorkerIdentity, now: Time) {
    Registered(db, worker)
    && db.workers[worker.workerId].healthy
    && db.workers[worker.workerId].heartbeatAt > now - Seconds(queue.workerHealthSeconds)
  }

  function NewAttempt(t: Task, token: Token, workerId: WorkerId, now: Time): Attempt {
    Attempt(token, workerId, t.releaseHash, t.activationEpoch, now, None, None, None,
            Unassigned, None, 0, None, None, 0)
  }

  /** The row a claim writes: re-pinned to the active release unless it is a discovery task. */
  function ClaimedTask(queue: QueuePolicy, t: Task, pin: Pointer, worker: WorkerIdentity, token: Token, now: Time): Task {
    t.(releaseHash := pin.releaseHash, activationEpoch := pin.epoch,
       state := Running, attemptCount := t.attemptCount + 1,
       leaseOwner := Some(worker.workerId), leaseToken := Some(token),
       leaseStartedAt := Some(now), leaseExpiresAt := Some(now + Seconds(queue.leaseSeconds)))
  }

  function LeaseOf(id: TaskId, t: Task, token: Token, expiresAt: Time): ScrapeLease {
    ScrapeLease(id, t.source, t.snapshotId, t.canonicalUrl, t.taskClass, t.releaseHash, t.activationEpoch,
                token, expiresAt, t.attemptCount)
  }

  /** `claim` after its reaping transaction; `pick` answers the query and `token` is a fresh UUID. */
  function Claim(cfg: Config, db: Db, worker: WorkerIdentity, pick: Option<TaskId>, token: Token,
                 now: Time, current: Time): (Db, Option<ScrapeLease>) {
    if !HealthyWorker(cfg.queue, db, worker, now) || pick.None? || pick.value !in db.tasks
       || !HealthyWorker(cfg.queue, db, worker, current) then (db, None)
    else
      var id := pick.value;
      var t := db.tasks[id];
      var advertised := db.workers[worker.workerId].releases;
      var pin := if t.taskClass.DiscoveryCapture? then Pointer(t.releaseHash, t.activationEpoch)
                 else if worker.source in db.pointers then db.pointers[worker.source] else Pointer("", 0);
      if pin.releaseHash !in advertised || (!t.taskClass.DiscoveryCapture? && worker.source !in db.pointers)
      then (db, None)
      else
        (TakeLease(cfg, db, worker, id, pin, token, current),
         Some(LeaseOf(id, ClaimedTask(cfg.queue, t, pin, worker, token, current), token, current + Seconds(cfg.queue.leaseSeconds))))
  }

  /** The rows a claim writes: the leased task and its newest attempt. */
  function TakeLease(cfg: Config, db: Db, worker: WorkerIdentity, id: TaskId, pin: Pointer, token: Token, at: Time): Db
    requires id in db.tasks
  {
    var t := ClaimedTask(cfg.queue, db.tasks[id], pin, worker, token, at);
    db.(tasks := db.tasks[id := t],
        attempts := db.attempts[AttemptKey(id, t.attemptCount) := NewAttempt(t, token, worker.workerId, at)],
        issued := db.issued + {token},
        log := db.log + [Claimed(id, token)])
  }

  function Heartbeat(cfg: Config, db: Db, worker: WorkerIdentity, lease: ScrapeLease, clock: Clock): (Db, Reply<ScrapeLease>) {
    if !Leased(db, worker, lease, clock) || db.tasks[lease.taskId].leaseStartedAt.None? then (db, LostLease)
    else
      var t := db.tasks[lease.taskId];
      var expires := Min(clock.current + Seconds(cfg.queue.leaseSeconds), t.leaseStartedAt.value + Seconds(cfg.queue.maxLeaseSeconds));
      if expires <= clock.current then (db, LostLease)
      else (RenewLease(db, lease.taskId, expires), Ok(lease.(expiresAt := expires)))
  }

  function RenewLease(db: Db, id: TaskId, expires: Time): Db
    requires id in db.tasks
  {
    db.(tasks := db.tasks[id := db.tasks[id].(leaseExpiresAt := Some(expires))])
  }

  function Pow2(n: int): int
    decreases n
  {
    if n <= 0 then 1 else 2 * Pow2(n - 1)
  }

  /** Seconds before the next try after the `n`-th attempt failed in transport. */
  function Backoff(n: int): int {
    Min(21600, 30 * Pow2(n - 1))
  }

  datatype Finish = Finish(code: Code, state: TaskState, responseBytes: int, retry: bool, availableAt: Option<Time>)

  function OutcomeOf(s: TaskState): AttemptOutcome {
    if s.Succeeded? then AttemptSucceeded else if s.Failed? then AttemptFailed else AttemptDeferred
  }

  /** The state and availability that `_finish` settles on once retries and the attempt limit are applied. */
  function Settled(queue: QueuePolicy, t: Task, f: Finish, current: Time): (TaskState, Option<Time>) {
    var retried := f.retry && t.attemptCount < queue.maxAttempts;
    var state := if retried then Deferred else f.state;
    var available := if retried then Some(current + Seconds(Backoff(t.attemptCount))) else f.availableAt;
    (if state.Deferred? && t.attemptCount >= queue.maxAttempts then Failed else state, available)
  }

  function RefundedTask(t: Task, availableAt: Option<Time>): Task {
    ClearLease(t.(attemptCount := t.attemptCount - 1, state := Deferred,
                  availableAt := if availableAt.Some? then availableAt.value else t.availableAt))
  }

  function FinishedTask(queue: QueuePolicy, t: Task, f: Finish, current: Time): Task {
    var (state, available) := Settled(queue, t, f, current);
    ClearLease(t.(state := state,
                  availableAt := if state.Deferred? && available.Some? then available.value else t.availableAt,
                  finishedAt := if state.Succeeded? || state.Failed? then Some(current) else t.finishedAt))
  }

  function ClosedAttempt(a: Attempt, outcome: AttemptOutcome, code: Code, bytes: int, at: Time): Attempt {
    a.(finishedAt := Some(at), outcome := Some(outcome), code := Some(code), responseBytes := bytes)
  }

  /** A pacing refusal refunds the attempt. */
  function RefundAttempt(db: Db, id: TaskId, k: AttemptKey, availableAt: Option<Time>): Db
    requires id in db.tasks
  {
    db.(tasks := db.tasks[id := RefundedTask(db.tasks[id], availableAt)],
        attempts := db.attempts - {k},
        log := db.log + [Refunded(id)])
  }

  /** Any other ending closes it. */
  function CloseAttempt(cfg: Config, db: Db, id: TaskId, k: AttemptKey, f: Finish, at: Time): Db
    requires id in db.tasks && k in db.attempts
  {
    var outcome := OutcomeOf(Settled(cfg.queue, db.tasks[id], f, at).0);
    db.(tasks := db.tasks[id := FinishedTask(cfg.queue, db.tasks[id], f, at)],
        attempts := db.attempts[k := ClosedAttempt(db.attempts[k], outcome, f.code, f.responseBytes, at)])
  }

  /** `_finish`. */
  function FinishLease(cfg: Config, db: Db, worker: WorkerIdentity, lease: ScrapeLease, f: Finish, clock: Clock): (Db, Reply<TaskState>) {
    if !(0 <= f.responseBytes <= 2_000_000) then (db, Invalid)
    else if !Leased(db, worker, lease, clock) then (db, LostLease)
    else
      var id := lease.taskId;
      var k := AttemptKey(id, db.tasks[id].attemptCount);
      if k !in db.attempts || db.attempts[k].finishedAt.Some? then (db, LostLease)
      else if f.code.BudgetExhausted? then (RefundAttempt(db, id, k, f.availableAt), Ok(Deferred))
      else (CloseAttempt(cfg, db, id, k, f, clock.current), Ok(Settled(cfg.queue, db.tasks[id], f, clock.current).0))
  }

  function Succeed(cfg: Config, db: Db, worker: WorkerIdentity, lease: ScrapeLease, code: Code, bytes: int, clock: Clock): (Db, Reply<TaskState>) {
    if code !in {Downloaded, Partial, ArtifactUnavailable} then (db, Invalid)
    else FinishLease(cfg, db, worker, lease, Finish(code, Succeeded, bytes, false, None), clock)
  }

  function Fail(cfg: Config, db: Db, worker: WorkerIdentity, lease: ScrapeLease, code: Code, clock: Clock): (Db, Reply<TaskState>) {
    if code !in {TransportError, ParserError, InvalidTarget, ArtifactUnavailable} then (db, Invalid)
    else FinishLease(cfg, db, worker, lease, Finish(code, Failed, 0, code.TransportError?, None), clock)
  }

  function Defer(cfg: Config, db: Db, worker: WorkerIdentity, lease: ScrapeLease, code: Code, availableAt: Time, clock: Clock): (Db, Reply<TaskState>) {
    if code !in {PortalDenied, SourceCooldown, BudgetExhausted} || availableAt <= clock.now then (db, Invalid)
    else FinishLease(cfg, db, worker, lease, Finish(code, Deferred, 0, false, Some(availableAt)), clock)
  }

  // ----- expiry

  predicate Expired(db: Db, now: Time, id: TaskId) {
    id in db.tasks && db.tasks[id].state.Running?
    && db.tasks[id].leaseExpiresAt.Some? && db.tasks[id].leaseExpiresAt.value <= now
  }

  predicate ReapBefore(db: Db, a: TaskId, b: TaskId)
    requires a in db.tasks && b in db.tasks && db.tasks[a].leaseExpiresAt.Some? && db.tasks[b].leaseExpiresAt.Some?
  {
    var x, y := db.tasks[a].leaseExpiresAt.value, db.tasks[b].leaseExpiresAt.value;
    x < y || (x == y && a < b)
  }

  /** The answer of the reaping query: the first `limit` expired rows that nobody has locked. */
  ghost predicate ReapRows(db: Db, now: Time, limit: int, locked: set<TaskId>, rows: seq<TaskId>) {
    (forall i :: 0 <= i < |rows| ==> Expired(db, now, rows[i]) && rows[i] !in locked)
    && (forall i, j :: 0 <= i < j < |rows| ==> ReapBefore(db, rows[i], rows[j]))
    && (forall id :: Expired(db, now, id) && id !in locked && id !in rows ==>
          |rows| == limit && forall i :: 0 <= i < |rows| ==> ReapBefore(db, rows[i], id))
    && |rows| <= limit
  }

  function ReapedTask(queue: QueuePolicy, t: Task, now: Time): Task {
    var failed := t.attemptCount >= queue.maxAttempts;
    ClearLease(t.(state := if failed then Failed else Pending, availableAt := now,
                  finishedAt := if failed then Some(now) else t.finishedAt))
  }

  function ReapedAttempt(a: Attempt, now: Time): Attempt {
    a.(finishedAt := Some(now), outcome := Some(AttemptExpired), code := Some(LeaseExpired))
  }

  /** `reap_expired`: every selected lease ends at once, wherever it stands in the query's answer. */
  function Reap(cfg: Config, db: Db, rows: set<TaskId>, now: Time): Db {
    db.(tasks := map id | id in db.tasks :: if id in rows then ReapedTask(cfg.queue, db.tasks[id], now) else db.tasks[id],
        attempts := map k | k in db.attempts ::
          if k.task in rows && k.task in db.tasks && k.number == db.tasks[k.task].attemptCount
          then ReapedAttempt(db.attempts[k], now) else db.attempts[k])
  }

  // ----- completion

  predicate OutcomeAccepted(lease: ScrapeLease, outcome: CaptureOutcome, now: Time) {
    (lease.taskClass.Live? || lease.taskClass.NetworkRecovery? || lease.taskClass.DiscoveryCapture?)
    && 0 < outcome.sizeBytes <= 2_000_000
    && outcome.releaseHash == lease.releaseHash
    && Calendar.Instant(outcome.fetchedAt) <= now
    && outcome.valid
    && (lease.taskClass.DiscoveryCapture? ==> outcome.artifactId.Some?)
  }

  /** The accepted outcome is being acknowledged again: same lease, same worker, same content. */
  predicate SameCompletion(db: Db, worker: WorkerIdentity, lease: ScrapeLease, outcome: CaptureOutcome) {
    var k := AttemptKey(lease.taskId, lease.attemptNumber);
    lease.taskId in db.results && lease.taskId in db.tasks && k in db.attempts
    && var prior := db.results[lease.taskId];
       db.tasks[lease.taskId].source == worker.source
       && db.tasks[lease.taskId].taskClass == lease.taskClass
       && db.tasks[lease.taskId].snapshotId == lease.snapshotId
       && prior.releaseHash == lease.releaseHash && prior.activationEpoch == lease.activationEpoch
       && prior.content == Fetched(outcome)
       && db.attempts[k].token == lease.token && db.attempts[k].workerId == worker.workerId
  }

  function SucceededTask(t: Task, at: Time): Task {
    ClearLease(t.(state := Succeeded, finishedAt := Some(at)))
  }

  /** `complete`. */
  function Complete(db: Db, worker: WorkerIdentity, lease: ScrapeLease, outcome: CaptureOutcome, clock: Clock): (Db, Reply<()>) {
    if !OutcomeAccepted(lease, outcome, clock.now) then (db, Invalid)
    else if lease.taskClass.DiscoveryCapture? then CompleteDiscovery(db, worker, lease, outcome, clock)
    else if worker.source !in db.pointers then (db, Invalid)
    else if lease.taskId in db.results then
      (db, if SameCompletion(db, worker, lease, outcome) then Ok(()) else LostLease)
    else if !Leased(db, worker, lease, clock) then (db, LostLease)
    else
      var id := lease.taskId;
      var t := db.tasks[id];
      var k := AttemptKey(id, t.attemptCount);
      var expiry := Calendar.TwoYearsAfter(outcome.fetchedAt);
      if t.leaseStartedAt.None? || Calendar.Instant(outcome.fetchedAt) < t.leaseStartedAt.value || expiry.None?
      then (db, Invalid)
      else if outcome.captureId in db.captures then (db, Conflict)
      else if k !in db.attempts then (db, LostLease)
      else
        (AcceptCapture(db, id, k, outcome, Calendar.Instant(expiry.value), clock.current), Ok(()))
  }

  function CaptureCode(outcome: CaptureOutcome): Code {
    if !outcome.missingFields then Downloaded else if outcome.artifactId.Some? then Partial else ArtifactUnavailable
  }

  /** The rows an accepted capture writes, all in one transaction. */
  function AcceptCapture(db: Db, id: TaskId, k: AttemptKey, outcome: CaptureOutcome, expiresAt: Time, at: Time): Db
    requires id in db.tasks && k in db.attempts
  {
    var t := db.tasks[id];
    db.(captures := db.captures[outcome.captureId := Capture(t.snapshotId, outcome.fetchedAt, outcome.contentHash)],
        results := db.results[id := ParserResult(outcome.captureId, t.releaseHash, t.activationEpoch, Fetched(outcome), expiresAt)],
        attempts := db.attempts[k := ClosedAttempt(db.attempts[k], AttemptSucceeded, CaptureCode(outcome), outcome.sizeBytes, at)],
        tasks := db.tasks[id := SucceededTask(t, at)],
        log := db.log + [Accepted(id)])
  }

  /** The rows of an accepted discovery capture. */
  function AcceptDiscovery(db: Db, id: TaskId, k: AttemptKey, row: Discovery, outcome: CaptureOutcome, at: Time): Db
    requires id in db.tasks && k in db.attempts
  {
    var t := db.tasks[id];
    db.(captures := db.captures[outcome.captureId := Capture(t.snapshotId, outcome.fetchedAt, outcome.contentHash)],
        discoveries := db.discoveries[id := row],
        attempts := db.attempts[k := ClosedAttempt(db.attempts[k], AttemptSucceeded, DiscoveryCaptured, outcome.sizeBytes, at)],
        tasks := db.tasks[id := SucceededTask(t, at)])
  }

  /** The discovery branch of `complete`: the artifact is recorded, but no production result. */
  function CompleteDiscovery(db: Db, worker: WorkerIdentity, lease: ScrapeLease, outcome: CaptureOutcome, clock: Clock): (Db, Reply<()>)
    requires outcome.artifactId.Some?
  {
    var id := lease.taskId;
    var row := Discovery(outcome.captureId, outcome.artifactId.value, outcome.contentHash);
    if id in db.discoveries then (db, if db.discoveries[id] == row then Ok(()) else LostLease)
    else if !Leased(db, worker, lease, clock) then (db, LostLease)
    else
      var t := db.tasks[id];
      var k := AttemptKey(id, t.attemptCount);
      if t.leaseStartedAt.None? || Calendar.Instant(outcome.fetchedAt) < t.leaseStartedAt.value then (db, Invalid)
      else if outcome.captureId in db.captures
              || (exists other :: other in db.discoveries && db.discoveries[other].artifactId == outcome.artifactId.value)
      then (db, Conflict)
      else if k !in db.attempts then (db, LostLease)
      else
        (AcceptDiscovery(db, id, k, row, outcome, clock.current), Ok(()))
  }

  /** `complete_artifact_replay`: the capture and the expiry come from the task's binding. */
  function CompleteReplay(db: Db, worker: WorkerIdentity, lease: ScrapeLease, captureId: CaptureId, releaseHash: Hash,
                          content: string, missingFields: bool, clock: Clock): (Db, Reply<()>) {
    if !lease.taskClass.ArtifactRecovery? || releaseHash != lease.releaseHash then (db, Invalid)
    else if !Leased(db, worker, lease, clock) then (db, LostLease)
    else
      var id := lease.taskId;
      var t := db.tasks[id];
      var k := AttemptKey(id, t.attemptCount);
      if id !in db.bindings || db.bindings[id].captureId != captureId then (db, LostLease)
      else if id in db.results then (db, Conflict)
      else if k !in db.attempts then (db, LostLease)
      else
        (AcceptReplay(db, id, k, content, missingFields, clock.now), Ok(()))
  }

  /** The rows an accepted replay writes. */
  function AcceptReplay(db: Db, id: TaskId, k: AttemptKey, content: string, missingFields: bool, at: Time): Db
    requires id in db.tasks && k in db.attempts && id in db.bindings
  {
    var t, b, a := db.tasks[id], db.bindings[id], db.attempts[k];
    db.(results := db.results[id := ParserResult(b.captureId, t.releaseHash, t.activationEpoch, Replayed(content), b.resultExpiresAt)],
        attempts := db.attempts[k := ClosedAttempt(a, AttemptSucceeded, if missingFields then Partial else Downloaded, a.responseBytes, at)],
        tasks := db.tasks[id := SucceededTask(t, at)],
        log := db.log + [Accepted(id)])
  }

  // ----- reading results, and their retention

  /** The rows `outcome` may serve for a snapshot. */
  predicate Servable(db: Db, source: Portal, snapshotId: int, now: Time, id: TaskId) {
    id in db.results && id in db.tasks
    && var r, t := db.results[id], db.tasks[id];
       t.source == source && t.snapshotId == snapshotId && t.state.Succeeded?
       && r.expiresAt > now
       && r.releaseHash in db.releases && !db.releases[r.releaseHash].status.Revoked?
       && ((exists i :: 0 <= i < |AuditsOf(db, source)|
              && AuditsOf(db, source)[i].releaseHash == r.releaseHash && AuditsOf(db, source)[i].epoch == r.activationEpoch)
           || PointsAt(db, source, r.releaseHash, r.activationEpoch))
  }

  /** `_purge_production_result` for each selected row: its capture and bindings go with the last result. */
  function Purge(db: Db, ids: set<TaskId>): Db {
    var results := map id | id in db.results && id !in ids :: db.results[id];
    var dropped := set id | id in db.results && id in ids :: db.results[id].captureId;
    var kept := set id | id in results :: results[id].captureId;
    var gone := dropped - kept;
    db.(results := results,
        captures := map c | c in db.captures && c !in gone :: db.captures[c],
        bindings := map id | id in db.bindings && db.bindings[id].captureId !in gone :: db.bindings[id])
  }

  /** What the daily purge selects: results whose capture is older than the two-year cutoff. */
  predicate PurgeRow(db: Db, now: Calendar.Moment, id: TaskId) {
    id in db.results && db.results[id].captureId in db.captures && Calendar.TwoYearCutoff(now).Some?
    && Calendar.Instant(db.captures[db.results[id].captureId].fetchedAt) < Calendar.Instant(Calendar.TwoYearCutoff(now).value)
  }
}
