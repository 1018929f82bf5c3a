/** Source pacing, proxy bytes and cooldowns: the budget's transactions as functions of the database. */
module SourceBudget {
  import opened Options
  import opened Contracts
  import opened DenialPolicy
  import Calendar

  const PROXY_USABLE_BYTES := 900_000_000

  function Day(t: Time): int { t / Calendar.DAY }

  function NextDay(t: Time): Time { (Day(t) + 1) * Calendar.DAY }

  // ----- the lease check of the budget transactions

  ghost predicate HasToken(db: Db, token: Token, k: AttemptKey) {
    k in db.attempts && db.attempts[k].token == token
  }

  ghost function AttemptOf(db: Db, token: Token): Option<AttemptKey> {
    if exists k :: HasToken(db, token, k) then
      var k :| HasToken(db, token, k);
      Some(k)
    else None
  }

  /** `_validate_lease`; unlike the queue's check it ignores the task class, URL and attempt number. */
  ghost predicate Admitted(db: Db, worker: WorkerIdentity, lease: ScrapeLease, now: Time) {
    Registered(db, worker) && AttemptOf(db, lease.token).Some?
    && lease.taskId in db.tasks
    && var t := db.tasks[lease.taskId];
       t.source == worker.source && t.snapshotId == lease.snapshotId && t.state.Running?
       && t.leaseOwner == Some(worker.workerId) && t.leaseToken == Some(lease.token)
       && t.leaseExpiresAt.Some? && t.leaseExpiresAt.value > now
       && t.releaseHash == lease.releaseHash && t.activationEpoch == lease.activationEpoch
       && (t.taskClass.DiscoveryCapture? || PointsAt(db, worker.source, t.releaseHash, t.activationEpoch))
  }

  // ----- aggregate rows

  /** `_locked_source_state`: created on first use, counters reset when the UTC day differs. */
  function SourceStateAt(db: Db, source: Portal, now: Time): SourceState {
    if source !in db.sources then SourceState(Day(now), 0, 0, None, None, 0)
    else if db.sources[source].dayKey != Day(now)
    then db.sources[source].(dayKey := Day(now), attemptCount := 0, successCount := 0)
    else db.sources[source]
  }

  function LedgerAt(db: Db, cycle: int): Ledger {
    if cycle in db.ledgers then db.ledgers[cycle] else Ledger(0, 0)
  }

  function ValueOr(t: Option<Time>, default: Time): Time {
    if t.Some? then t.value else default
  }

  /** The earliest start that pacing, cooldown and a pending direct fallback all allow. */
  function EarliestStart(s: SourceState, t: Task, now: Time): Time {
    Max(Max(now, ValueOr(s.nextStartAt, now)),
        Max(ValueOr(s.cooldownUntil, now), if t.fallbackPending then ValueOr(t.fallbackAt, now) else now))
  }

  predicate MayStart(policy: SourceBudgetPolicy, s: SourceState, t: Task, now: Time) {
    EarliestStart(s, t, now) <= now
    && s.attemptCount < policy.dailyAttemptLimit
    && s.successCount < policy.dailySuccessLimit
  }

  predicate RouteUsable(db: Db, source: Portal, now: Time, r: RouteId) {
    r in db.routes && db.routes[r]
    && (QuarantineKey(r, source) !in db.quarantine || db.quarantine[QuarantineKey(r, source)] <= now)
  }

  /** The first healthy route that is not quarantined for the source. */
  ghost function FirstRoute(db: Db, source: Portal, now: Time): Option<RouteId> {
    if exists r :: RouteUsable(db, source, now, r) && forall q :: RouteUsable(db, source, now, q) ==> r <= q then
      var r :| RouteUsable(db, source, now, r) && forall q :: RouteUsable(db, source, now, q) ==> r <= q;
      Some(r)
    else None
  }

  // ----- transactions

  function FallbackConsumed(t: Task): Task {
    if t.fallbackPending then t.(fallbackPending := false, fallbackAt := None) else t
  }

  function StartedAttempt(a: Attempt, route: Option<RouteId>, reserved: int, now: Time): Attempt {
    a.(route := RouteClass(route), routeId := route,
       proxyReservedBytes := reserved, networkStartedAt := Some(now))
  }

  /** The rows that a granted start writes: the source is charged, a proxy route reserves bytes of the
      current billing cycle, and a pending direct fallback is used up. */
  ghost function Grant(cfg: Config, db: Db, source: Portal, id: TaskId, k: AttemptKey, requested: int, now: Time): (Db, Option<RouteId>)
    requires source in cfg.budgets && id in db.tasks && k in db.attempts
  {
    var t := db.tasks[id];
    var s := SourceStateAt(db, source, now);
    var wantsProxy := requested != 0 && !t.fallbackPending;
    var cycle := cfg.cycleOf(now);
    var ledger := LedgerAt(db, cycle);
    var fits := ledger.allocatedBytes + requested <= PROXY_USABLE_BYTES;
    var route := if wantsProxy && fits then FirstRoute(db, source, now) else None;
    var reserved := if route.Some? then requested else 0;
    (db.(sources := db.sources[source := ChargedSource(s, cfg.budgets[source], now)],
         ledgers := if wantsProxy then db.ledgers[cycle := ledger.(allocatedBytes := ledger.allocatedBytes + reserved)] else db.ledgers,
         attempts := db.attempts[k := StartedAttempt(db.attempts[k], route, reserved, now)],
         tasks := db.tasks[id := FallbackConsumed(t)],
         log := db.log + [Started(source, id, RouteClass(route), now)]),
     route)
  }

  function ChargedSource(s: SourceState, policy: SourceBudgetPolicy, now: Time): SourceState {
    s.(attemptCount := s.attemptCount + 1, nextStartAt := Some(now + policy.minimumInterval))
  }

  function RouteClass(route: Option<RouteId>): Route {
    if route.Some? then Proxy else Direct
  }

  function Refusal(s: SourceState, t: Task, now: Time): NetworkPermit {
    NetworkPermit(false, if EarliestStart(s, t, now) <= now then NextDay(now) else EarliestStart(s, t, now), Unassigned, None)
  }

  /** `reserve_start`.  A refusal still commits the day rollover. */
  ghost function ReserveStart(cfg: Config, db: Db, worker: WorkerIdentity, lease: ScrapeLease, requested: int, now: Time): (Db, Reply<NetworkPermit>) {
    if !(0 <= requested <= 2_000_000) || worker.source !in cfg.budgets then (db, Invalid)
    else if !Admitted(db, worker, lease, now) then (db, LostLease)
    else
      var k := AttemptOf(db, lease.token).value;
      var a := db.attempts[k];
      var s := SourceStateAt(db, worker.source, now);
      if !a.route.Unassigned? then
        (db, Ok(NetworkPermit(true, ValueOr(a.networkStartedAt, a.startedAt), a.route, a.routeId)))
      else if !MayStart(cfg.budgets[worker.source], s, db.tasks[lease.taskId], now) then
        (TouchSource(db, worker.source, now), Ok(Refusal(s, db.tasks[lease.taskId], now)))
      else
        var (db', route) := Grant(cfg, db, worker.source, lease.taskId, k, requested, now);
        (db', Ok(NetworkPermit(true, now, RouteClass(route), route)))
  }

  /** The source row after an outcome was decided: success counting, denial streak, merged cooldown. */
  function ObservedSource(s: SourceState, route: Route, c: Classification, d: RouteDecision, now: Time): SourceState {
    var counted := if !c.Success? then s
                   else if route.Direct? then s.(successCount := s.successCount + 1, directDenialCount := 0)
                   else s.(successCount := s.successCount + 1);
    if d.sourceCooldownUntil.None? then counted
    else counted.(cooldownUntil := Some(Max(ValueOr(s.cooldownUntil, now), d.sourceCooldownUntil.value)),
                  directDenialCount := d.consecutiveDirectDenials)
  }

  /** The task row when the outcome grants a direct retry: the lease ends here. */
  function FallbackTask(t: Task, at: Time): Task {
    ClearLease(t.(fallbackPending := true, fallbackAt := Some(at), state := Deferred, availableAt := at))
  }

  function ObservedAttempt(a: Attempt, c: Classification, bytes: int, d: RouteDecision, now: Time): Attempt {
    var b := a.(classification := Some(c), responseBytes := bytes,
                proxyReservedBytes := if a.route.Proxy? then 0 else a.proxyReservedBytes);
    if d.retryDirectAt.None? then b
    else b.(finishedAt := Some(now), outcome := Some(AttemptDeferred), code := Some(PortalDenied))
  }

  /** Ledger row of the outcome's own cycle once the reservation is replaced by the bytes moved. */
  function Reconciled(l: Ledger, reserved: int, bytes: int): Ledger {
    Ledger(l.allocatedBytes - reserved + bytes, l.transferredBytes + bytes)
  }

  /** The rows that an accepted outcome writes. */
  function Observe(cfg: Config, db: Db, source: Portal, id: TaskId, k: AttemptKey, permit: NetworkPermit,
                   c: Classification, bytes: int, d: RouteDecision, now: Time): Db
    requires id in db.tasks && k in db.attempts
  {
    var a := db.attempts[k];
    var cycle := cfg.cycleOf(now);
    db.(sources := db.sources[source := ObservedSource(SourceStateAt(db, source, now), permit.route, c, d, now)],
        ledgers := if permit.route.Proxy?
                   then db.ledgers[cycle := Reconciled(LedgerAt(db, cycle), a.proxyReservedBytes, bytes)] else db.ledgers,
        attempts := db.attempts[k := ObservedAttempt(a, c, bytes, d, now)],
        routes := if permit.routeId.Some? && d.markProxyUnhealthy && permit.routeId.value in db.routes
                  then db.routes[permit.routeId.value := false] else db.routes,
        quarantine := if permit.routeId.Some? && d.quarantineProxySource
                      then Quarantined(db.quarantine, QuarantineKey(permit.routeId.value, source), ValueOr(d.retryDirectAt, now + Seconds(900)))
                      else db.quarantine,
        tasks := if d.retryDirectAt.Some? then db.tasks[id := FallbackTask(db.tasks[id], d.retryDirectAt.value)] else db.tasks,
        log := db.log + [Observed(source, id, permit.route, c, now, d.sourceCooldownUntil, d.retryDirectAt)])
  }

  /** The reconciled reservation would take the cycle over the usable allowance. */
  predicate Overruns(cfg: Config, db: Db, k: AttemptKey, permit: NetworkPermit, bytes: int, now: Time)
    requires k in db.attempts
  {
    permit.route.Proxy?
    && LedgerAt(db, cfg.cycleOf(now)).allocatedBytes - db.attempts[k].proxyReservedBytes + bytes > PROXY_USABLE_BYTES
  }

  /** A success that no start charged to the current day could have produced. */
  predicate Uncharged(s: SourceState, c: Classification) {
    c.Success? && s.successCount >= s.attemptCount
  }

  /** `record_outcome`. */
  ghost function RecordOutcome(cfg: Config, db: Db, worker: WorkerIdentity, lease: ScrapeLease, permit: NetworkPermit,
                               c: Classification, bytes: int, retryAfter: Option<int>, now: Time): (Db, Reply<RouteDecision>) {
    if !permit.granted || permit.route.Unassigned? || !(0 <= bytes <= 2_000_000) || worker.source !in cfg.budgets
    then (db, Invalid)
    else if !Admitted(db, worker, lease, now) then (db, LostLease)
    else
      var k := AttemptOf(db, lease.token).value;
      var a := db.attempts[k];
      var s := SourceStateAt(db, worker.source, now);
      if a.route != permit.route || a.routeId != permit.routeId || a.classification.Some? then (db, LostLease)
      else if (retryAfter.Some? && retryAfter.value < 0) || Overruns(cfg, db, k, permit, bytes, now) || Uncharged(s, c)
      then (db, Invalid)
      else
        var d := Decide(permit.route, c, now, s.directDenialCount, retryAfter);
        (Observe(cfg, db, worker.source, lease.taskId, k, permit, c, bytes, d, now), Ok(d))
  }

  function Quarantined(q: map<QuarantineKey, Time>, k: QuarantineKey, until: Time): map<QuarantineKey, Time> {
    q[k := if k in q then Max(q[k], until) else until]
  }

  function RegisterProxyRoute(db: Db, r: RouteId): Db {
    db.(routes := db.routes[r := true])
  }

  /** `snapshot` reads the counters but commits the same day rollover as a start. */
  function TouchSource(db: Db, source: Portal, now: Time): Db {
    db.(sources := db.sources[source := SourceStateAt(db, source, now)])
  }
}
