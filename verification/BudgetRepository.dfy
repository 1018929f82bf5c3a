/** The budget's repository: pacing, proxy bytes and cooldowns on the shared database. */
module BudgetRepository {
  import opened Options
  import opened Contracts
  import opened DenialPolicy
  import opened Coordinator
  import opened Fencing
  import opened Persistence
  import B = SourceBudget

  lemma ReserveIntact(cfg: Config, db: Db, worker: WorkerIdentity, lease: ScrapeLease, requested: int, now: Time)
    requires Intact(db)
    ensures Intact(B.ReserveStart(cfg, db, worker, lease, requested, now).0)
  {
    hide Intact, B.ReserveStart;
    StepIntact(cfg, db, ReserveStep(worker, lease, requested, now));
  }

  lemma OutcomeIntact(cfg: Config, db: Db, worker: WorkerIdentity, lease: ScrapeLease, permit: NetworkPermit,
                      c: Classification, bytes: int, retryAfter: Option<int>, now: Time)
    requires Intact(db)
    ensures Intact(B.RecordOutcome(cfg, db, worker, lease, permit, c, bytes, retryAfter, now).0)
  {
    hide Intact, B.RecordOutcome;
    StepIntact(cfg, db, OutcomeStep(worker, lease, permit, c, bytes, retryAfter, now));
  }

  lemma TouchIntact(cfg: Config, db: Db, source: Portal, now: Time)
    requires Intact(db)
    ensures Intact(B.TouchSource(db, source, now))
  {
    hide Intact, B.TouchSource;
    StepIntact(cfg, db, SnapshotStep(source, now));
  }

  /** A token identifies at most one attempt. */
  lemma TokenIsUnique(db: Db, token: Token, k: AttemptKey)
    requires Intact(db) && B.HasToken(db, token, k)
    ensures B.AttemptOf(db, token) == Some(k)
  {
    hide TaskSound, AttemptSound, UniqueKeys;
    var found := B.AttemptOf(db, token).value;
    assert B.HasToken(db, token, found);
  }

  lemma NoToken(db: Db, token: Token)
    requires forall k :: !B.HasToken(db, token, k)
    ensures B.AttemptOf(db, token).None?
  {
  }

  class SourceBudgetRepository {
    const database: Database
    const cfg: Config

    constructor (database: Database, cfg: Config)
      ensures this.database == database && this.cfg == cfg
    {
      this.database, this.cfg := database, cfg;
    }

    method FindAttempt(token: Token) returns (found: Option<AttemptKey>)
      requires database.Valid()
      ensures found == B.AttemptOf(database.State(), token)
      ensures found.Some? ==> found.value in database.attempts
    {
      hide Intact;
      var rest := database.attempts.Keys;
      while rest != {}
        invariant rest <= database.attempts.Keys
        invariant forall k :: k in database.attempts && k !in rest ==> database.attempts[k].token != token
        decreases |rest|
      {
        var k :| k in rest;
        rest := rest - {k};
        if database.attempts[k].token == token {
          TokenIsUnique(database.State(), token, k);
          return Some(k);
        }
      }
      NoToken(database.State(), token);
      found := None;
    }

    /** `_validate_lease`. */
    method ValidateLease(worker: WorkerIdentity, lease: ScrapeLease, now: Time) returns (attempt: Option<AttemptKey>)
      requires database.Valid()
      ensures attempt.Some? <==> B.Admitted(database.State(), worker, lease, now)
      ensures attempt.Some? ==> attempt == B.AttemptOf(database.State(), lease.token) && attempt.value in database.attempts
                                && lease.taskId in database.tasks
    {
      hide Intact, B.AttemptOf;
      var found := FindAttempt(lease.token);
      if lease.taskId !in database.tasks || worker.workerId !in database.workers || found.None? {
        return None;
      }
      var task, identity := database.tasks[lease.taskId], database.workers[worker.workerId];
      if task.source != worker.source || task.snapshotId != lease.snapshotId || task.leaseOwner != Some(worker.workerId)
         || task.leaseToken != Some(lease.token) || !task.state.Running? || task.leaseExpiresAt.None? || task.leaseExpiresAt.value <= now {
        return None;
      }
      if identity.source != worker.source || identity.deployment != worker.deployment
         || task.releaseHash != lease.releaseHash || task.activationEpoch != lease.activationEpoch {
        return None;
      }
      if !task.taskClass.DiscoveryCapture?
         && (worker.source !in database.pointers || database.pointers[worker.source] != Pointer(task.releaseHash, task.activationEpoch)) {
        return None;
      }
      attempt := found;
    }

    /** `_locked_source_state`: created on first use, reset when the UTC day differs. */
    method LockedSourceState(source: Portal, now: Time) returns (state: SourceState)
      ensures state == B.SourceStateAt(database.State(), source, now)
    {
      if source !in database.sources {
        return SourceState(B.Day(now), 0, 0, None, None, 0);
      }
      state := database.sources[source];
      if state.dayKey != B.Day(now) {
        state := state.(dayKey := B.Day(now), attemptCount := 0, successCount := 0);
      }
    }

    /** `_locked_proxy_ledger`. */
    method LockedLedger(cycle: int) returns (ledger: Ledger)
      ensures ledger == B.LedgerAt(database.State(), cycle)
    {
      ledger := if cycle in database.ledgers then database.ledgers[cycle] else Ledger(0, 0);
    }

    /** The first healthy route, in order of its identifier, that is not quarantined for the source. */
    method FirstHealthyRoute(source: Portal, now: Time) returns (route: Option<RouteId>)
      ensures route == B.FirstRoute(database.State(), source, now)
    {
      route := None;
      var rest := database.routes.Keys;
      while rest != {}
        invariant rest <= database.routes.Keys
        invariant route.Some? ==> B.RouteUsable(database.State(), source, now, route.value)
        invariant forall r :: r !in rest && B.RouteUsable(database.State(), source, now, r) ==> route.Some? && route.value <= r
        decreases |rest|
      {
        assert (forall r :: r !in rest) ==> rest == {};
        var r :| r in rest;
        rest := rest - {r};
        var k := QuarantineKey(r, source);
        if database.routes[r] && (k !in database.quarantine || database.quarantine[k] <= now) && (route.None? || r < route.value) {
          route := Some(r);
        }
      }
      FirstIsFirst(database.State(), source, now, route);
    }

    /** `reserve_start`: a start is granted once per attempt, and a refusal still commits the day's rollover. */
    method ReserveStart(worker: WorkerIdentity, lease: ScrapeLease, requested: int, now: Time) returns (reply: Reply<NetworkPermit>)
      requires database.Valid()
      modifies database
      ensures database.Valid()
      ensures (database.State(), reply) == B.ReserveStart(cfg, old(database.State()), worker, lease, requested, now)
    {
      hide Intact, B.Admitted, B.AttemptOf, B.SourceStateAt, B.Grant;
      ReserveIntact(cfg, database.State(), worker, lease, requested, now);
      if !(0 <= requested <= 2_000_000) || worker.source !in cfg.budgets {
        return Invalid;
      }
      var k := ValidateLease(worker, lease, now);
      if k.None? {
        return LostLease;
      }
      var attempt, task := database.attempts[k.value], database.tasks[lease.taskId];
      if !attempt.route.Unassigned? {
        return Ok(NetworkPermit(true, B.ValueOr(attempt.networkStartedAt, attempt.startedAt), attempt.route, attempt.routeId));
      }
      var policy := cfg.budgets[worker.source];
      var state := LockedSourceState(worker.source, now);
      var availableAt := Max(Max(now, B.ValueOr(state.nextStartAt, now)),
                             Max(B.ValueOr(state.cooldownUntil, now), if task.fallbackPending then B.ValueOr(task.fallbackAt, now) else now));
      if availableAt > now || state.attemptCount >= policy.dailyAttemptLimit || state.successCount >= policy.dailySuccessLimit {
        database.sources := database.sources[worker.source := state];
        return Ok(NetworkPermit(false, if availableAt <= now then B.NextDay(now) else availableAt, Unassigned, None));
      }
      var route := GrantStart(worker.source, lease.taskId, k.value, state, requested, now);
      reply := Ok(NetworkPermit(true, now, B.RouteClass(route), route));
    }

    /** The route of a start: a proxy only on request, never for a pending fallback, and only if one is healthy
        and the cycle's allowance has room; its bytes are reserved at once. */
    method ChooseRoute(source: Portal, fallback: bool, requested: int, now: Time)
      returns (route: Option<RouteId>, proxyBytes: int, ledgers: map<int, Ledger>)
      ensures var cycle := cfg.cycleOf(now);
              var ledger := B.LedgerAt(database.State(), cycle);
              route == (if requested != 0 && !fallback && ledger.allocatedBytes + requested <= B.PROXY_USABLE_BYTES
                        then B.FirstRoute(database.State(), source, now) else None)
              && proxyBytes == (if route.Some? then requested else 0)
              && ledgers == if requested != 0 && !fallback
                   then database.ledgers[cycle := ledger.(allocatedBytes := ledger.allocatedBytes + proxyBytes)] else database.ledgers
    {
      hide B.FirstRoute;
      route := None;
      proxyBytes := 0;
      ledgers := database.ledgers;
      if requested != 0 && !fallback {
        var cycle := cfg.cycleOf(now);
        var ledger := LockedLedger(cycle);
        route := FirstHealthyRoute(source, now);
        if route.Some? && ledger.allocatedBytes + requested <= B.PROXY_USABLE_BYTES {
          ledger := ledger.(allocatedBytes := ledger.allocatedBytes + requested);
          proxyBytes := requested;
        } else {
          route := None;
        }
        ledgers := ledgers[cycle := ledger];
      }
    }

    /** The rows of a granted start. */
    method GrantStart(source: Portal, id: TaskId, k: AttemptKey, state: SourceState, requested: int, now: Time)
      returns (route: Option<RouteId>)
      requires source in cfg.budgets && id in database.tasks && k in database.attempts
      requires state == B.SourceStateAt(database.State(), source, now)
      modifies database
      ensures (database.State(), route) == B.Grant(cfg, old(database.State()), source, id, k, requested, now)
    {
      hide B.SourceStateAt, B.FirstRoute, B.LedgerAt, B.Grant, B.ChargedSource, B.StartedAttempt, B.FallbackConsumed;
      var task, attempt := database.tasks[id], database.attempts[k];
      var proxyBytes, ledgers;
      route, proxyBytes, ledgers := ChooseRoute(source, task.fallbackPending, requested, now);
      GrantIs(cfg, database.State(), source, id, k, requested, now, route, proxyBytes, ledgers);
      RowsOfStart(attempt, state, task, cfg.budgets[source], route, proxyBytes, now);
      var charged := state.(attemptCount := state.attemptCount + 1, nextStartAt := Some(now + cfg.budgets[source].minimumInterval));
      attempt := attempt.(route := B.RouteClass(route), routeId := route, proxyReservedBytes := proxyBytes, networkStartedAt := Some(now));
      if task.fallbackPending {
        task := task.(fallbackPending := false, fallbackAt := None);
      }
      database.FlushBudget(database.sources[source := charged], ledgers, database.attempts[k := attempt], database.tasks[id := task],
                           database.routes, database.quarantine, Started(source, id, B.RouteClass(route), now));
    }

    /** `record_outcome`. */
    method RecordOutcome(worker: WorkerIdentity, lease: ScrapeLease, permit: NetworkPermit, c: Classification, bytes: int,
                         retryAfter: Option<int>, now: Time) returns (reply: Reply<RouteDecision>)
      requires database.Valid()
      modifies database
      ensures database.Valid()
      ensures (database.State(), reply) == B.RecordOutcome(cfg, old(database.State()), worker, lease, permit, c, bytes, retryAfter, now)
    {
      hide Intact, B.Admitted, B.AttemptOf, B.SourceStateAt, B.Observe, B.LedgerAt, Decide;
      OutcomeIntact(cfg, database.State(), worker, lease, permit, c, bytes, retryAfter, now);
      if !permit.granted || permit.route.Unassigned? || !(0 <= bytes <= 2_000_000) || worker.source !in cfg.budgets {
        return Invalid;
      }
      var k := ValidateLease(worker, lease, now);
      if k.None? {
        return LostLease;
      }
      var attempt := database.attempts[k.value];
      if attempt.route != permit.route || attempt.routeId != permit.routeId || attempt.classification.Some? {
        return LostLease;
      }
      var state := LockedSourceState(worker.source, now);
      if retryAfter.Some? && retryAfter.value < 0 {
        return Invalid;
      }
      var decision := Decide(permit.route, c, now, state.directDenialCount, retryAfter);
      if permit.route.Proxy? {
        var ledger := LockedLedger(cfg.cycleOf(now));
        if ledger.allocatedBytes - attempt.proxyReservedBytes + bytes > B.PROXY_USABLE_BYTES {
          return Invalid;
        }
      }
      if c.Success? && state.successCount >= state.attemptCount {
        return Invalid;
      }
      WriteOutcome(worker.source, lease.taskId, k.value, permit, state, c, bytes, decision, now);
      reply := Ok(decision);
    }

    /** The rows of an accepted outcome. */
    method WriteOutcome(source: Portal, id: TaskId, k: AttemptKey, permit: NetworkPermit, state: SourceState, c: Classification,
                        bytes: int, d: RouteDecision, now: Time)
      requires id in database.tasks && k in database.attempts && database.attempts[k].route == permit.route
      requires state == B.SourceStateAt(database.State(), source, now)
      modifies database
      ensures database.State() == B.Observe(cfg, old(database.State()), source, id, k, permit, c, bytes, d, now)
    {
      hide B.SourceStateAt, B.LedgerAt, B.ObservedSource, B.ObservedAttempt, B.Quarantined, B.Reconciled, B.FallbackTask, B.Observe;
      ObserveIs(cfg, database.State(), source, id, k, permit, c, bytes, d, now);
      var ledgers := ReconcileReservation(k, permit, bytes, now);
      var observed := CountOutcome(state, permit.route, c, d, now);
      var attempt := CloseObserved(database.attempts[k], c, bytes, d, now);
      var routes, quarantine := MarkRoute(database.routes, database.quarantine, source, permit, d, now);
      var tasks := database.tasks;
      if d.retryDirectAt.Some? {
        var task := DeferToDirect(tasks[id], d.retryDirectAt.value);
        tasks := tasks[id := task];
      }
      database.FlushBudget(database.sources[source := observed], ledgers, database.attempts[k := attempt], tasks, routes, quarantine,
                           Observed(source, id, permit.route, c, now, d.sourceCooldownUntil, d.retryDirectAt));
    }

    /** `_reconcile_proxy_reservation`: the reservation gives way to the bytes that moved. */
    method ReconcileReservation(k: AttemptKey, permit: NetworkPermit, bytes: int, now: Time) returns (ledgers: map<int, Ledger>)
      requires k in database.attempts
      ensures ledgers == var cycle := cfg.cycleOf(now);
                if permit.route.Proxy?
                then database.ledgers[cycle := B.Reconciled(B.LedgerAt(database.State(), cycle), database.attempts[k].proxyReservedBytes, bytes)]
                else database.ledgers
    {
      ledgers := database.ledgers;
      if permit.route.Proxy? {
        var cycle := cfg.cycleOf(now);
        var ledger := LockedLedger(cycle);
        var remaining := ledger.allocatedBytes - database.attempts[k].proxyReservedBytes;
        ledger := ledger.(transferredBytes := ledger.transferredBytes + bytes);
        ledger := ledger.(allocatedBytes := remaining + bytes);
        ledgers := ledgers[cycle := ledger];
      }
    }

    /** `snapshot`: the counters of the day, after the same rollover as a start. */
    method Snapshot(source: Portal, now: Time) returns (state: SourceState)
      requires database.Valid()
      modifies database
      ensures database.Valid()
      ensures database.State() == B.TouchSource(old(database.State()), source, now)
      ensures state == B.SourceStateAt(old(database.State()), source, now)
    {
      hide Intact, B.SourceStateAt;
      TouchIntact(cfg, database.State(), source, now);
      state := LockedSourceState(source, now);
      database.sources := database.sources[source := state];
    }
  }

  /** Success counting, the denial streak and the merged cooldown, update by update. */
  method CountOutcome(s: SourceState, route: Route, c: Classification, d: RouteDecision, now: Time) returns (state: SourceState)
    ensures state == B.ObservedSource(s, route, c, d, now)
  {
    state := s;
    if c.Success? {
      state := state.(successCount := state.successCount + 1);
      if route.Direct? {
        state := state.(directDenialCount := 0);
      }
    }
    if d.sourceCooldownUntil.Some? {
      var current := if state.cooldownUntil.Some? then state.cooldownUntil.value else now;
      state := state.(cooldownUntil := Some(Max(current, d.sourceCooldownUntil.value)));
      state := state.(directDenialCount := d.consecutiveDirectDenials);
    }
  }

  /** What the decision does to the proxy route. */
  method MarkRoute(routes: map<RouteId, bool>, quarantine: map<QuarantineKey, Time>, source: Portal, permit: NetworkPermit,
                   d: RouteDecision, now: Time) returns (health: map<RouteId, bool>, shut: map<QuarantineKey, Time>)
    ensures health == if permit.routeId.Some? && d.markProxyUnhealthy && permit.routeId.value in routes
                      then routes[permit.routeId.value := false] else routes
    ensures shut == if permit.routeId.Some? && d.quarantineProxySource
                    then B.Quarantined(quarantine, QuarantineKey(permit.routeId.value, source), B.ValueOr(d.retryDirectAt, now + Seconds(900)))
                    else quarantine
  {
    health, shut := routes, quarantine;
    if permit.routeId.Some? && d.markProxyUnhealthy && permit.routeId.value in routes {
      health := health[permit.routeId.value := false];
    }
    if permit.routeId.Some? && d.quarantineProxySource {
      var q := QuarantineKey(permit.routeId.value, source);
      var until := if d.retryDirectAt.Some? then d.retryDirectAt.value else now + Seconds(900);
      if q in shut {
        until := Max(shut[q], until);
      }
      shut := shut[q := until];
    }
  }

  /** The lease ends at once; the task waits for its direct retry. */
  method DeferToDirect(t: Task, at: Time) returns (task: Task)
    ensures task == B.FallbackTask(t, at)
  {
    task := t.(fallbackPending := true, fallbackAt := Some(at));
    task := task.(state := Deferred, availableAt := at);
    task := ClearLease(task);
  }

  method CloseObserved(a: Attempt, c: Classification, bytes: int, d: RouteDecision, now: Time) returns (attempt: Attempt)
    ensures attempt == B.ObservedAttempt(a, c, bytes, d, now)
  {
    attempt := a.(classification := Some(c), responseBytes := bytes);
    if a.route.Proxy? {
      attempt := attempt.(proxyReservedBytes := 0);
    }
    if d.retryDirectAt.Some? {
      attempt := attempt.(finishedAt := Some(now), outcome := Some(AttemptDeferred), code := Some(PortalDenied));
    }
  }

  /** The rows of a granted start, given the route and the ledgers. */
  lemma GrantIs(cfg: Config, db: Db, source: Portal, id: TaskId, k: AttemptKey, requested: int, now: Time,
                route: Option<RouteId>, proxyBytes: int, ledgers: map<int, Ledger>)
    requires source in cfg.budgets && id in db.tasks && k in db.attempts
    requires var cycle := cfg.cycleOf(now);
             var ledger := B.LedgerAt(db, cycle);
             var fallback := db.tasks[id].fallbackPending;
             route == (if requested != 0 && !fallback && ledger.allocatedBytes + requested <= B.PROXY_USABLE_BYTES
                       then B.FirstRoute(db, source, now) else None)
             && proxyBytes == (if route.Some? then requested else 0)
             && ledgers == if requested != 0 && !fallback
                  then db.ledgers[cycle := ledger.(allocatedBytes := ledger.allocatedBytes + proxyBytes)] else db.ledgers
    ensures B.Grant(cfg, db, source, id, k, requested, now) ==
              (db.(sources := db.sources[source := B.ChargedSource(B.SourceStateAt(db, source, now), cfg.budgets[source], now)],
                   ledgers := ledgers,
                   attempts := db.attempts[k := B.StartedAttempt(db.attempts[k], route, proxyBytes, now)],
                   tasks := db.tasks[id := B.FallbackConsumed(db.tasks[id])],
                   log := db.log + [Started(source, id, B.RouteClass(route), now)]),
               route)
  {
    hide B.SourceStateAt, B.FirstRoute, B.LedgerAt, B.ChargedSource, B.StartedAttempt, B.FallbackConsumed, B.RouteClass;
  }

  lemma RowsOfStart(a: Attempt, s: SourceState, t: Task, policy: SourceBudgetPolicy, route: Option<RouteId>, proxyBytes: int, now: Time)
    ensures B.ChargedSource(s, policy, now) == s.(attemptCount := s.attemptCount + 1, nextStartAt := Some(now + policy.minimumInterval))
    ensures B.StartedAttempt(a, route, proxyBytes, now)
            == a.(route := B.RouteClass(route), routeId := route, proxyReservedBytes := proxyBytes, networkStartedAt := Some(now))
    ensures B.FallbackConsumed(t) == if t.fallbackPending then t.(fallbackPending := false, fallbackAt := None) else t
  {
  }

  /** The rows of an accepted outcome, table by table. */
  lemma ObserveIs(cfg: Config, db: Db, source: Portal, id: TaskId, k: AttemptKey, permit: NetworkPermit,
                  c: Classification, bytes: int, d: RouteDecision, now: Time)
    requires id in db.tasks && k in db.attempts
    ensures var cycle := cfg.cycleOf(now);
            B.Observe(cfg, db, source, id, k, permit, c, bytes, d, now)
            == db.(sources := db.sources[source := B.ObservedSource(B.SourceStateAt(db, source, now), permit.route, c, d, now)],
                   ledgers := if permit.route.Proxy?
                              then db.ledgers[cycle := B.Reconciled(B.LedgerAt(db, cycle), db.attempts[k].proxyReservedBytes, bytes)]
                              else db.ledgers,
                   attempts := db.attempts[k := B.ObservedAttempt(db.attempts[k], c, bytes, d, now)],
                   tasks := if d.retryDirectAt.Some? then db.tasks[id := B.FallbackTask(db.tasks[id], d.retryDirectAt.value)] else db.tasks,
                   routes := if permit.routeId.Some? && d.markProxyUnhealthy && permit.routeId.value in db.routes
                             then db.routes[permit.routeId.value := false] else db.routes,
                   quarantine := if permit.routeId.Some? && d.quarantineProxySource
                                 then B.Quarantined(db.quarantine, QuarantineKey(permit.routeId.value, source),
                                                    B.ValueOr(d.retryDirectAt, now + Seconds(900)))
                                 else db.quarantine,
                   log := db.log + [Observed(source, id, permit.route, c, now, d.sourceCooldownUntil, d.retryDirectAt)])
  {
    hide B.SourceStateAt, B.LedgerAt, B.ObservedSource, B.ObservedAttempt, B.Quarantined, B.Reconciled, B.FallbackTask, B.ValueOr;
  }

  /** The least usable route is the first one. */
  lemma FirstIsFirst(db: Db, source: Portal, now: Time, route: Option<RouteId>)
    requires route.Some? ==> B.RouteUsable(db, source, now, route.value)
    requires forall r :: B.RouteUsable(db, source, now, r) ==> route.Some? && route.value <= r
    ensures route == B.FirstRoute(db, source, now)
  {
    hide B.RouteUsable;
    if route.Some? {
      assert B.RouteUsable(db, source, now, route.value) && forall q :: B.RouteUsable(db, source, now, q) ==> route.value <= q;
    }
  }
}
