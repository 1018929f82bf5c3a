/** What the source budget's transactions accept and leave behind, in terms of the rows alone. */
module BudgetRules {
  import opened Options
  import opened Contracts
  import opened ScrapeQueue
  import opened SourceBudget
  import opened DenialPolicy
  import opened Coordinator
  import opened Fencing
  import opened Changes
  import opened Fence
  import opened LeaseLife
  import opened QueueRules
  import Calendar

  // ----- reservations

  /** Registered, marked healthy, and not quarantined for the portal past `now`. */
  predicate Open(db: Db, source: Portal, now: Time, r: RouteId) {
    r in db.routes && db.routes[r]
    && (QuarantineKey(r, source) in db.quarantine ==> db.quarantine[QuarantineKey(r, source)] <= now)
  }

  /** Pace, cooldown and a pending direct fallback let the task start now. */
  predicate Paced(s: SourceState, t: Task, now: Time) {
    (s.nextStartAt.Some? ==> s.nextStartAt.value <= now)
    && (s.cooldownUntil.Some? ==> s.cooldownUntil.value <= now)
    && (t.fallbackPending && t.fallbackAt.Some? ==> t.fallbackAt.value <= now)
  }

  /** So do both daily limits. */
  predicate Due(policy: SourceBudgetPolicy, s: SourceState, t: Task, now: Time) {
    Paced(s, t, now) && s.attemptCount < policy.dailyAttemptLimit && s.successCount < policy.dailySuccessLimit
  }

  lemma DueExactly(policy: SourceBudgetPolicy, s: SourceState, t: Task, now: Time)
    ensures MayStart(policy, s, t, now) <==> Due(policy, s, t, now)
  {
  }

  lemma FirstRouteExactly(db: Db, source: Portal, now: Time)
    ensures var first := FirstRoute(db, source, now);
            (first.Some? <==> exists r :: Open(db, source, now, r))
            && (first.Some? ==> Open(db, source, now, first.value) && forall r :: Open(db, source, now, r) ==> first.value <= r)
  {
    forall r ensures Open(db, source, now, r) <==> RouteUsable(db, source, now, r) {
    }
    hide Open, RouteUsable;
    if r: RouteId :| Open(db, source, now, r) {
      assert RouteUsable(db, source, now, r) && r in db.routes by { RouteIsRow(db, source, now, r); }
      var least := Least(db, source, now, db.routes.Keys, r);
    }
  }

  lemma RouteIsRow(db: Db, source: Portal, now: Time, r: RouteId)
    requires RouteUsable(db, source, now, r)
    ensures r in db.routes
  {
  }

  /** A usable route has a least one. */
  lemma {:induction false} Least(db: Db, source: Portal, now: Time, rows: set<RouteId>, r: RouteId) returns (least: RouteId)
    requires r in rows && RouteUsable(db, source, now, r) && rows <= db.routes.Keys
    ensures least in rows && RouteUsable(db, source, now, least) && forall q :: q in rows && RouteUsable(db, source, now, q) ==> least <= q
    decreases rows
  {
    hide RouteUsable;
    if q: RouteId :| q in rows && q < r && RouteUsable(db, source, now, q) {
      least := Least(db, source, now, rows - {r}, q);
    } else {
      least := r;
    }
  }

  /** `reserve_start` is accepted exactly for a valid byte count under a current lease.  A first reservation is granted
      exactly if the source is due; a granted one asked for bytes goes by the first open proxy route exactly if no direct
      fallback is pending, the billing cycle has room and there is such a route, and directly otherwise. */
  lemma ReserveExactly(cfg: Config, db: Db, worker: WorkerIdentity, lease: ScrapeLease, requested: int, now: Time)
    requires Fenced(db)
    ensures Admitted(db, worker, lease, now) ==> Runs(db, lease.taskId)
    ensures var (db', reply) := ReserveStart(cfg, db, worker, lease, requested, now);
            (reply.Ok? <==> 0 <= requested <= 2_000_000 && worker.source in cfg.budgets && Admitted(db, worker, lease, now))
            && (!reply.Ok? ==> db' == db)
            && (reply.Ok? && db.attempts[Newest(db, lease.taskId)].route == Unassigned ==>
                  (reply.value.granted <==> Due(cfg.budgets[worker.source], SourceStateAt(db, worker.source, now), db.tasks[lease.taskId], now)))
  {
    hide Fenced, Admitted, AttemptOf, MayStart, Due, SourceStateAt, Grant, Refusal, OpenUnder;
    if Admitted(db, worker, lease, now) {
      AdmittedFacts(db, worker, lease, now);
      if worker.source in cfg.budgets {
        DueExactly(cfg.budgets[worker.source], SourceStateAt(db, worker.source, now), db.tasks[lease.taskId], now);
      }
    }
    RefusalRefuses(SourceStateAt(db, worker.source, now), now);
  }

  lemma RefusalRefuses(s: SourceState, now: Time)
    ensures forall t :: !Refusal(s, t, now).granted && Refusal(s, t, now).routeId.None?
  {
  }

  /** A reservation that starts the task now: it answers, and it changes something. */
  ghost predicate NewStart(cfg: Config, db: Db, worker: WorkerIdentity, lease: ScrapeLease, requested: int, now: Time) {
    var (db', reply) := ReserveStart(cfg, db, worker, lease, requested, now);
    reply.Ok? && reply.value.granted && db' != db
  }

  lemma NewStartIsFirst(cfg: Config, db: Db, worker: WorkerIdentity, lease: ScrapeLease, requested: int, now: Time)
    requires Fenced(db) && NewStart(cfg, db, worker, lease, requested, now)
    ensures Runs(db, lease.taskId) && worker.source in cfg.budgets && 0 <= requested <= 2_000_000
    ensures db.attempts[Newest(db, lease.taskId)].route == Unassigned
    ensures var (db', reply) := ReserveStart(cfg, db, worker, lease, requested, now);
            var (granted, route) := Grant(cfg, db, worker.source, lease.taskId, Newest(db, lease.taskId), requested, now);
            db' == granted && reply == Ok(NetworkPermit(true, now, RouteClass(route), route))
  {
    hide Fenced, Admitted, AttemptOf, MayStart, SourceStateAt, Grant, Refusal, OpenUnder;
    AdmittedFacts(db, worker, lease, now);
    RefusalRefuses(SourceStateAt(db, worker.source, now), now);
  }

  /** The route of a new start, and the rows it writes for task and attempt. */
  lemma NewStartRoute(cfg: Config, db: Db, worker: WorkerIdentity, lease: ScrapeLease, requested: int, now: Time)
    requires Fenced(db) && NewStart(cfg, db, worker, lease, requested, now)
    ensures Runs(db, lease.taskId)
    ensures var (db', reply) := ReserveStart(cfg, db, worker, lease, requested, now);
            var permit, t, k := reply.value, db.tasks[lease.taskId], Newest(db, lease.taskId);
            permit.granted && permit.availableAt == now
            && (permit.route == Proxy <==> permit.routeId.Some?) && (permit.route == Direct <==> permit.routeId.None?)
            && (permit.route == Proxy <==>
                  requested > 0 && !t.fallbackPending && LedgerAt(db, cfg.cycleOf(now)).allocatedBytes + requested <= 900_000_000
                  && exists r :: Open(db, worker.source, now, r))
            && (permit.route == Proxy ==>
                  Open(db, worker.source, now, permit.routeId.value)
                  && forall r :: Open(db, worker.source, now, r) ==> permit.routeId.value <= r)
            && db'.routes == db.routes && db'.quarantine == db.quarantine
            && db'.attempts == db.attempts[k := db.attempts[k].(
                 route := permit.route, routeId := permit.routeId, networkStartedAt := Some(now),
                 proxyReservedBytes := if permit.route == Proxy then requested else 0)]
            && db'.tasks == db.tasks[lease.taskId := if t.fallbackPending then t.(fallbackPending := false, fallbackAt := None) else t]
  {
    NewStartIsFirst(cfg, db, worker, lease, requested, now);
    FirstRouteExactly(db, worker.source, now);
    hide Fenced, NewStart, ReserveStart, Open, FirstRoute, SourceStateAt, LedgerAt, ChargedSource, OpenUnder;
  }

  // ----- refusals

  /** A refusal writes nothing but the counters of a passed day.  It names the earliest time at which pace, cooldown and
      fallback allow a start, or the next midnight if they do already; the same request is never granted before. */
  lemma RefusalIsEarliest(cfg: Config, db: Db, worker: WorkerIdentity, lease: ScrapeLease, requested: int, now: Time, again: Time)
    requires Fenced(db) && now <= again
    requires var reply := ReserveStart(cfg, db, worker, lease, requested, now).1; reply.Ok? && !reply.value.granted
    ensures lease.taskId in db.tasks && worker.source in cfg.budgets
    ensures var (db', reply) := ReserveStart(cfg, db, worker, lease, requested, now);
            var t, wait := db.tasks[lease.taskId], reply.value.availableAt;
            db' == db.(sources := db.sources[worker.source := SourceStateAt(db, worker.source, now)])
            && now < wait
            && (if Paced(SourceStateAt(db, worker.source, now), t, now) then wait % Calendar.DAY == 0 && wait - now <= Calendar.DAY
                else Paced(SourceStateAt(db', worker.source, again), t, again) <==> wait <= again)
            && (again < wait ==> !Due(cfg.budgets[worker.source], SourceStateAt(db', worker.source, again), t, again))
  {
    hide Fenced, Admitted, AttemptOf, Grant, OpenUnder;
    AdmittedFacts(db, worker, lease, now);
  }

  // ----- outcomes

  /** How long the proxy's portal denial keeps the task and the route away from the portal. */
  function DenialEnds(now: Time, retryAfter: Option<int>): Time {
    now + Seconds(if retryAfter.Some? && retryAfter.value > 900 then retryAfter.value else 900)
  }

  function Later(before: Option<Time>, after: Time): Time {
    if before.Some? && before.value > after then before.value else after
  }

  function Quarantine(db: Db, r: RouteId, source: Portal): Option<Time> {
    if QuarantineKey(r, source) in db.quarantine then Some(db.quarantine[QuarantineKey(r, source)]) else None
  }

  /** When the outcome sends the task on a direct retry: at once after a failure of the proxy, after the denial's delay
      otherwise. */
  function RetryAt(permit: NetworkPermit, c: Classification, retryAfter: Option<int>, now: Time): Option<Time> {
    if permit.route != Proxy then None
    else if c == ProxyInfrastructureFailure then Some(now)
    else if c == PortalDenial then Some(DenialEnds(now, retryAfter))
    else None
  }

  lemma DecisionOf(permit: NetworkPermit, c: Classification, now: Time, denials: int, retryAfter: Option<int>)
    requires Waits(retryAfter)
    ensures var d := Decide(permit.route, c, now, denials, retryAfter);
            d.retryDirectAt == RetryAt(permit, c, retryAfter, now)
            && d.markProxyUnhealthy == (permit.route == Proxy && c == ProxyInfrastructureFailure)
            && d.quarantineProxySource == (permit.route == Proxy && c == PortalDenial)
            && (d.sourceCooldownUntil.Some? <==> permit.route == Direct && c == PortalDenial)
  {
  }

  lemma AcceptedOutcome(cfg: Config, db: Db, worker: WorkerIdentity, lease: ScrapeLease, permit: NetworkPermit, c: Classification,
                        bytes: int, retryAfter: Option<int>, now: Time)
    requires Fenced(db) && RecordOutcome(cfg, db, worker, lease, permit, c, bytes, retryAfter, now).1.Ok?
    ensures Runs(db, lease.taskId) && Waits(retryAfter) && permit.route != Unassigned
    ensures var (db', reply) := RecordOutcome(cfg, db, worker, lease, permit, c, bytes, retryAfter, now);
            reply.value == Decide(permit.route, c, now, SourceStateAt(db, worker.source, now).directDenialCount, retryAfter)
            && db' == Observe(cfg, db, worker.source, lease.taskId, Newest(db, lease.taskId), permit, c, bytes, reply.value, now)
  {
    hide Fenced, Admitted, AttemptOf, Observe, SourceStateAt, Overruns, Uncharged, Decide, OpenUnder;
    AdmittedFacts(db, worker, lease, now);
  }

  /** What an accepted outcome does to the proxy's routes: a failure of the proxy marks a registered route unhealthy for
      everybody; a denial through it keeps its health and quarantines it for the portal, never shortening an earlier
      quarantine; every other outcome leaves both tables alone. */
  lemma OutcomeOnRoutes(cfg: Config, db: Db, worker: WorkerIdentity, lease: ScrapeLease, permit: NetworkPermit, c: Classification,
                        bytes: int, retryAfter: Option<int>, now: Time)
    requires Fenced(db) && RecordOutcome(cfg, db, worker, lease, permit, c, bytes, retryAfter, now).1.Ok?
    ensures var db' := RecordOutcome(cfg, db, worker, lease, permit, c, bytes, retryAfter, now).0;
            db'.routes == (if permit.route == Proxy && c == ProxyInfrastructureFailure && permit.routeId.Some? && permit.routeId.value in db.routes
                           then db.routes[permit.routeId.value := false] else db.routes)
            && db'.quarantine == (if permit.route == Proxy && c == PortalDenial && permit.routeId.Some?
                                  then db.quarantine[QuarantineKey(permit.routeId.value, worker.source) :=
                                         Later(Quarantine(db, permit.routeId.value, worker.source), DenialEnds(now, retryAfter))]
                                  else db.quarantine)
  {
    AcceptedOutcome(cfg, db, worker, lease, permit, c, bytes, retryAfter, now);
    DecisionOf(permit, c, now, SourceStateAt(db, worker.source, now).directDenialCount, retryAfter);
    hide Fenced, RecordOutcome, Decide, SourceStateAt, LedgerAt, ObservedSource, ObservedAttempt, FallbackTask, OpenUnder;
  }

  /** What it does to the task and its attempt: the classification and bytes are recorded, the reservation is used up, and
      a denial or failure of the proxy ends the lease for one direct retry. */
  lemma OutcomeOnTask(cfg: Config, db: Db, worker: WorkerIdentity, lease: ScrapeLease, permit: NetworkPermit, c: Classification,
                      bytes: int, retryAfter: Option<int>, now: Time)
    requires Fenced(db) && RecordOutcome(cfg, db, worker, lease, permit, c, bytes, retryAfter, now).1.Ok?
    ensures Runs(db, lease.taskId)
    ensures var db' := RecordOutcome(cfg, db, worker, lease, permit, c, bytes, retryAfter, now).0;
            var t, k, retry := db.tasks[lease.taskId], Newest(db, lease.taskId), RetryAt(permit, c, retryAfter, now);
            var noted := db.attempts[k].(classification := Some(c), responseBytes := bytes,
                                         proxyReservedBytes := if db.attempts[k].route == Proxy then 0 else db.attempts[k].proxyReservedBytes);
            if retry.None? then db'.tasks == db.tasks && db'.attempts == db.attempts[k := noted]
            else db'.tasks == db.tasks[lease.taskId := Freed(t).(state := Deferred, availableAt := retry.value,
                                                                 fallbackPending := true, fallbackAt := retry)]
                 && db'.attempts == db.attempts[k := noted.(finishedAt := Some(now), outcome := Some(AttemptDeferred), code := Some(PortalDenied))]
  {
    AcceptedOutcome(cfg, db, worker, lease, permit, c, bytes, retryAfter, now);
    DecisionOf(permit, c, now, SourceStateAt(db, worker.source, now).directDenialCount, retryAfter);
    hide Fenced, RecordOutcome, Decide, SourceStateAt, LedgerAt, ObservedSource, Quarantined, OpenUnder;
  }

  // ----- routes over whole runs

  /** No quarantine gets shorter, and a route marked unhealthy stays so unless it is registered again. */
  ghost predicate KeepsAway(db: Db, db': Db, c: Change) {
    (forall k :: k in db.quarantine ==> k in db'.quarantine && db.quarantine[k] <= db'.quarantine[k])
    && (forall r :: r in db.routes && !db.routes[r] && !(c.RouteAdded? && c.route == r) ==> r in db'.routes && !db'.routes[r])
  }

  lemma ObserveKeepsAway(cfg: Config, db: Db, c: Change)
    requires Permitted(cfg, db, c) && Budgeting(c)
    ensures KeepsAway(db, Commit(cfg, db, c), c)
  {
    hide Permitted, Commit, SourceStateAt, LedgerAt, FirstRoute, ChargedSource, StartedAttempt, FallbackConsumed,
         ObservedSource, ObservedAttempt, FallbackTask, OpenUnder;
    BudgetCommits(cfg, db, c);
  }

  lemma LeaseKeepsAway(cfg: Config, db: Db, c: Change)
    requires Permitted(cfg, db, c) && (Holding(c) || Finishing(c))
    ensures KeepsAway(db, Commit(cfg, db, c), c)
  {
    hide Permitted, Commit, OpenUnder, Claimable, ClaimedTask, NewAttempt, RefundedTask, FinishedTask, ClosedAttempt, Settled, SucceededTask, CaptureCode;
    if Holding(c) {
      LeaseCommits(cfg, db, c);
    } else {
      EndCommits(cfg, db, c);
    }
  }

  lemma OtherKeepsAway(cfg: Config, db: Db, c: Change)
    requires Permitted(cfg, db, c) && (Queueing(c) || Registering(c))
    ensures KeepsAway(db, Commit(cfg, db, c), c)
  {
    hide Permitted, Commit, BindingOf, NewKey, Blank, ReapedTask, ReapedAttempt, AuditsOf, ParserReleases.Withdraw;
    if Queueing(c) {
      QueueCommits(cfg, db, c);
    } else {
      RegistryCommits(cfg, db, c);
    }
  }

  lemma ChangeKeepsAway(cfg: Config, db: Db, c: Change)
    requires Permitted(cfg, db, c)
    ensures KeepsAway(db, Commit(cfg, db, c), c)
  {
    hide Permitted, Commit, KeepsAway;
    if Budgeting(c) {
      ObserveKeepsAway(cfg, db, c);
    } else if Holding(c) || Finishing(c) {
      LeaseKeepsAway(cfg, db, c);
    } else {
      OtherKeepsAway(cfg, db, c);
    }
  }

  lemma {:induction false} QuarantinesLast(cfg: Config, db: Db, steps: seq<Step>, k: QuarantineKey)
    requires Fenced(db) && k in db.quarantine
    ensures k in Run(cfg, db, steps).quarantine && db.quarantine[k] <= Run(cfg, db, steps).quarantine[k]
    decreases |steps|
  {
    hide Fenced, Apply, Permitted, Commit, Settles;
    if steps != [] {
      var n := |steps| - 1;
      QuarantinesLast(cfg, db, steps[..n], k);
      RunSettles(cfg, db, steps[..n]);
      var c := StepCommits(cfg, Run(cfg, db, steps[..n]), steps[n]);
      ChangeKeepsAway(cfg, Run(cfg, db, steps[..n]), c);
    }
  }

  lemma {:induction false} UnhealthyLasts(cfg: Config, db: Db, steps: seq<Step>, r: RouteId)
    requires Fenced(db) && r in db.routes && !db.routes[r]
    requires ProxyRouteStep(r) !in steps
    ensures r in Run(cfg, db, steps).routes && !Run(cfg, db, steps).routes[r]
    decreases |steps|
  {
    hide Fenced, Apply, Permitted, Commit, Settles, Traces;
    if steps != [] {
      var n := |steps| - 1;
      UnhealthyLasts(cfg, db, steps[..n], r);
      RunSettles(cfg, db, steps[..n]);
      var mid := Run(cfg, db, steps[..n]);
      if steps[n].ProxyRouteStep? {
        OneMoreRoute(cfg, mid, steps[n].route);
      } else {
        var c := StepCommits(cfg, mid, steps[n]);
        RoutesAddedByStep(steps[n], c);
        ChangeKeepsAway(cfg, mid, c);
      }
    }
  }

  lemma RoutesAddedByStep(step: Step, c: Change)
    requires Traces(step, c) && !step.ProxyRouteStep?
    ensures !c.RouteAdded?
  {
  }

  lemma OneMoreRoute(cfg: Config, db: Db, route: RouteId)
    ensures Apply(cfg, db, ProxyRouteStep(route)).routes == db.routes[route := true]
  {
    hide ApplyLease, ApplyQueue;
  }

  /** After a denial through a proxy route the portal's tasks do not start on that route again before the denial's delay
      is over, whatever happens in between. */
  lemma DeniedRouteRests(cfg: Config, before: seq<Step>, worker: WorkerIdentity, lease: ScrapeLease, permit: NetworkPermit, bytes: int,
                         retryAfter: Option<int>, now: Time, after: seq<Step>, worker2: WorkerIdentity, lease2: ScrapeLease,
                         requested: int, later: Time)
    requires RecordOutcome(cfg, Run(cfg, EMPTY, before), worker, lease, permit, PortalDenial, bytes, retryAfter, now).1.Ok?
    requires permit.route == Proxy && permit.routeId.Some? && worker2.source == worker.source
    requires var db := Run(cfg, RecordOutcome(cfg, Run(cfg, EMPTY, before), worker, lease, permit, PortalDenial, bytes, retryAfter, now).0, after);
             NewStart(cfg, db, worker2, lease2, requested, later)
             && ReserveStart(cfg, db, worker2, lease2, requested, later).1.value.routeId == permit.routeId
    ensures DenialEnds(now, retryAfter) <= later
  {
    hide Fenced, Apply, Run, RecordOutcome, ReserveStart, NewStart, Settles;
    ReachableFenced(cfg, before);
    var db := Run(cfg, EMPTY, before);
    var denied := RecordOutcome(cfg, db, worker, lease, permit, PortalDenial, bytes, retryAfter, now).0;
    OutcomeOnRoutes(cfg, db, worker, lease, permit, PortalDenial, bytes, retryAfter, now);
    OutcomeFenced(cfg, db, worker, lease, permit, PortalDenial, bytes, retryAfter, now);
    QuarantinesLast(cfg, denied, after, QuarantineKey(permit.routeId.value, worker.source));
    RunSettles(cfg, denied, after);
    NewStartRoute(cfg, Run(cfg, denied, after), worker2, lease2, requested, later);
  }

  /** After a failure of a registered proxy route no task of any portal starts on it until it is registered again. */
  lemma FailedRouteStaysOut(cfg: Config, before: seq<Step>, worker: WorkerIdentity, lease: ScrapeLease, permit: NetworkPermit, bytes: int,
                            retryAfter: Option<int>, now: Time, after: seq<Step>, worker2: WorkerIdentity, lease2: ScrapeLease,
                            requested: int, later: Time)
    requires RecordOutcome(cfg, Run(cfg, EMPTY, before), worker, lease, permit, ProxyInfrastructureFailure, bytes, retryAfter, now).1.Ok?
    requires permit.route == Proxy && permit.routeId.Some? && permit.routeId.value in Run(cfg, EMPTY, before).routes
    requires ProxyRouteStep(permit.routeId.value) !in after
    requires var db := Run(cfg, RecordOutcome(cfg, Run(cfg, EMPTY, before), worker, lease, permit, ProxyInfrastructureFailure, bytes, retryAfter,
                                              now).0, after);
             NewStart(cfg, db, worker2, lease2, requested, later)
    ensures var db := Run(cfg, RecordOutcome(cfg, Run(cfg, EMPTY, before), worker, lease, permit, ProxyInfrastructureFailure, bytes, retryAfter,
                                             now).0, after);
            ReserveStart(cfg, db, worker2, lease2, requested, later).1.value.routeId != permit.routeId
  {
    hide Fenced, Apply, Run, RecordOutcome, ReserveStart, NewStart, Settles;
    ReachableFenced(cfg, before);
    var db := Run(cfg, EMPTY, before);
    var failed := RecordOutcome(cfg, db, worker, lease, permit, ProxyInfrastructureFailure, bytes, retryAfter, now).0;
    OutcomeOnRoutes(cfg, db, worker, lease, permit, ProxyInfrastructureFailure, bytes, retryAfter, now);
    OutcomeFenced(cfg, db, worker, lease, permit, ProxyInfrastructureFailure, bytes, retryAfter, now);
    UnhealthyLasts(cfg, failed, after, permit.routeId.value);
    RunSettles(cfg, failed, after);
    NewStartRoute(cfg, Run(cfg, failed, after), worker2, lease2, requested, later);
  }

  lemma OutcomeFenced(cfg: Config, db: Db, worker: WorkerIdentity, lease: ScrapeLease, permit: NetworkPermit, c: Classification,
                      bytes: int, retryAfter: Option<int>, now: Time)
    requires Fenced(db)
    ensures Fenced(RecordOutcome(cfg, db, worker, lease, permit, c, bytes, retryAfter, now).0)
  {
    hide Fenced, Permitted, Commit, Advances, RecordOutcome;
    var change := OutcomeChange(cfg, db, worker, lease, permit, c, bytes, retryAfter, now);
    ChangeFenced(cfg, db, change);
  }
}
