/** Why a worker that keeps to its round stays within the protocol that conserves proxy bytes. */
module WorkerProtocol {
  import opened Options
  import opened Contracts
  import opened SourceBudget
  import opened Coordinator
  import opened Fencing
  import opened Changes
  import opened Fence
  import opened LeaseLife
  import opened ProxyLedger

  /** As long as the task runs under the token, no start has been granted under it. */
  predicate NotStarted(db: Db, id: TaskId, token: Token) {
    RunsUnder(db, id, token) ==> Newest(db, id) in db.attempts && db.attempts[Newest(db, id)].route.Unassigned?
  }

  lemma SameAttempt(db: Db, db': Db, id: TaskId, token: Token)
    requires Advances(db, db') && token in db.issued && id in db.tasks && RunsUnder(db', id, token)
    ensures RunsUnder(db, id, token) && id in db'.tasks && Newest(db', id) == Newest(db, id)
  {
    assert TaskAdvances(db.tasks[id], db'.tasks[id], db.issued);
  }

  lemma TakenElsewhere(cfg: Config, db: Db, c: Change)
    requires Permitted(cfg, db, c) && c.LeaseTaken?
    ensures c.id in db.tasks && !db.tasks[c.id].state.Running?
  {
    hide Current;
  }

  /** A change leaves the route of a running task's attempt alone, unless it grants a start or records an
      outcome for that very task. */
  lemma RouteKept(cfg: Config, db: Db, c: Change, id: TaskId)
    requires Fenced(db) && Permitted(cfg, db, c) && id in db.tasks && db.tasks[id].state.Running?
    requires Newest(db, id) in db.attempts && Newest(db, id) in Commit(cfg, db, c).attempts
    ensures Commit(cfg, db, c).attempts[Newest(db, id)].route == db.attempts[Newest(db, id)].route || (c.StartGranted? && c.id == id)
  {
    hide Fenced, Permitted, Commit;
    if c.StartGranted? {
      StartMoves(cfg, db, c);
    } else if c.OutcomeObserved? {
      OutcomeMoves(cfg, db, c);
    } else if c.LeaseTaken? {
      TakenElsewhere(cfg, db, c);
      TakeMoves(cfg, db, c);
    } else if c.AttemptRefunded? {
      RefundMoves(cfg, db, c);
    } else {
      OthersKeepReservations(cfg, db, c);
    }
  }

  lemma StepNotStarted(cfg: Config, db: Db, step: Step, id: TaskId, token: Token)
    requires Fenced(db) && id in db.tasks && token in db.issued && NotStarted(db, id, token)
    requires !(step.ReserveStep? && step.lease.token == token)
    ensures NotStarted(Apply(cfg, db, step), id, token)
  {
    hide Fenced, Advances, Apply, Permitted, Commit, RunsUnder;
    var db' := Apply(cfg, db, step);
    StepFenced(cfg, db, step);
    if RunsUnder(db', id, token) {
      SameAttempt(db, db', id, token);
      RunsHere(db', id, token);
      NewestAttempt(db', id);
      RunsHere(db, id, token);
      if step.ReserveStep? && step.lease.taskId == id {
        OtherToken(db, id, token, step.lease.token);
        DeadLeaseChangesNothing(cfg, db, step);
      } else {
        var c := StepCommits(cfg, db, step);
        StartsElsewhere(step, c, id);
        RouteKept(cfg, db, c, id);
      }
    }
  }

  lemma RunsHere(db: Db, id: TaskId, token: Token)
    requires RunsUnder(db, id, token)
    ensures id in db.tasks && db.tasks[id].state.Running?
  {
  }

  lemma OtherToken(db: Db, id: TaskId, token: Token, other: Token)
    requires RunsUnder(db, id, token) && other != token
    ensures !RunsUnder(db, id, other)
  {
  }

  lemma StartsElsewhere(step: Step, c: Change, id: TaskId)
    requires Traces(step, c) && !(step.ReserveStep? && step.lease.taskId == id)
    ensures !(c.StartGranted? && c.id == id)
  {
  }

  lemma {:induction false} RunNotStarted(cfg: Config, db: Db, steps: seq<Step>, id: TaskId, token: Token)
    requires Fenced(db) && id in db.tasks && token in db.issued && NotStarted(db, id, token)
    requires forall i :: 0 <= i < |steps| && steps[i].ReserveStep? ==> steps[i].lease.token != token
    ensures NotStarted(Run(cfg, db, steps), id, token)
    decreases |steps|
  {
    hide Fenced, Apply, NotStarted, Settles;
    if steps != [] {
      var n := |steps| - 1;
      RunNotStarted(cfg, db, steps[..n], id, token);
      RunSettles(cfg, db, steps[..n]);
      StillThere(cfg, db, steps[..n], id, token);
      StepNotStarted(cfg, Run(cfg, db, steps[..n]), steps[n], id, token);
    }
  }

  /** Tasks and drawn tokens never disappear. */
  lemma {:induction false} StillThere(cfg: Config, db: Db, steps: seq<Step>, id: TaskId, token: Token)
    requires Fenced(db) && id in db.tasks && token in db.issued
    ensures id in Run(cfg, db, steps).tasks && token in Run(cfg, db, steps).issued
    decreases |steps|
  {
    hide Fenced, Apply, Settles;
    if steps != [] {
      var n := |steps| - 1;
      StillThere(cfg, db, steps[..n], id, token);
      RunSettles(cfg, db, steps[..n]);
      StepFenced(cfg, Run(cfg, db, steps[..n]), steps[n]);
    }
  }

  /** A refused reservation leaves the attempt without a start. */
  lemma RefusalStartsNothing(cfg: Config, db: Db, worker: WorkerIdentity, lease: ScrapeLease, requested: int, now: Time)
    requires Fenced(db)
    requires var reply := ReserveStart(cfg, db, worker, lease, requested, now).1; reply.Ok? && !reply.value.granted
    ensures var db' := ReserveStart(cfg, db, worker, lease, requested, now).0;
            NotStarted(db', lease.taskId, lease.token) && lease.taskId in db'.tasks && lease.token in db'.issued
  {
    hide Fenced, AttemptOf, SourceStateAt, MayStart, Grant, OpenUnder;
    AdmittedFacts(db, worker, lease, now);
    NewestToken(db, lease.taskId);
    IssuedToken(db, lease.taskId);
  }

  lemma IssuedToken(db: Db, id: TaskId)
    requires Fenced(db) && Runs(db, id)
    ensures db.attempts[Newest(db, id)].token in db.issued
  {
    hide TaskSound;
    assert AttemptSound(db, Newest(db, id));
  }

  /** A worker that reserves once under its lease and gives the attempt back only after that reservation was
      refused stays within the protocol, whatever all other parties do in between. */
  lemma RefusedDeferralInProtocol(cfg: Config, before: seq<Step>, worker: WorkerIdentity, lease: ScrapeLease, requested: int, now: Time,
                                  after: seq<Step>, availableAt: Time, clock: Clock)
    requires var reply := ReserveStart(cfg, Run(cfg, EMPTY, before), worker, lease, requested, now).1; reply.Ok? && !reply.value.granted
    requires forall i :: 0 <= i < |after| && after[i].ReserveStep? ==> after[i].lease.token != lease.token
    ensures var db := Run(cfg, ReserveStart(cfg, Run(cfg, EMPTY, before), worker, lease, requested, now).0, after);
            InProtocol(cfg, db, DeferStep(worker, lease, BudgetExhausted, availableAt, clock))
  {
    hide Fenced, Apply, ReserveStart;
    ReachableFenced(cfg, before);
    var db := Run(cfg, EMPTY, before);
    RefusalStartsNothing(cfg, db, worker, lease, requested, now);
    var db' := ReserveStart(cfg, db, worker, lease, requested, now).0;
    ReserveKeepsFence(cfg, db, worker, lease, requested, now);
    RunNotStarted(cfg, db', after, lease.taskId, lease.token);
  }

  lemma ReserveKeepsFence(cfg: Config, db: Db, worker: WorkerIdentity, lease: ScrapeLease, requested: int, now: Time)
    requires Fenced(db)
    ensures Fenced(ReserveStart(cfg, db, worker, lease, requested, now).0)
  {
    hide Fenced, ReserveStart, Advances;
    StepFenced(cfg, db, ReserveStep(worker, lease, requested, now));
  }
  // ----- a start is reserved once

  /** The permit that a started attempt stands for. */
  function PermitOf(a: Attempt): NetworkPermit {
    NetworkPermit(true, ValueOr(a.networkStartedAt, a.startedAt), a.route, a.routeId)
  }

  /** As long as the task runs under the token, its attempt has been started with this permit. */
  predicate StartedWith(db: Db, id: TaskId, token: Token, permit: NetworkPermit) {
    RunsUnder(db, id, token) ==>
      Newest(db, id) in db.attempts && !db.attempts[Newest(db, id)].route.Unassigned? && PermitOf(db.attempts[Newest(db, id)]) == permit
  }

  /** No change touches the permit of a running task's attempt once it has one. */
  lemma PermitKept(cfg: Config, db: Db, c: Change, id: TaskId)
    requires Fenced(db) && Permitted(cfg, db, c) && id in db.tasks && db.tasks[id].state.Running?
    requires Newest(db, id) in db.attempts && Newest(db, id) in Commit(cfg, db, c).attempts
    requires !db.attempts[Newest(db, id)].route.Unassigned?
    ensures var a, a' := db.attempts[Newest(db, id)], Commit(cfg, db, c).attempts[Newest(db, id)];
            a'.route == a.route && PermitOf(a') == PermitOf(a)
  {
    hide Fenced, Permitted, Commit;
    if c.StartGranted? {
      StartMoves(cfg, db, c);
    } else if c.OutcomeObserved? {
      OutcomeMoves(cfg, db, c);
    } else if c.LeaseTaken? {
      TakenElsewhere(cfg, db, c);
      TakeMoves(cfg, db, c);
    } else if c.AttemptRefunded? {
      RefundMoves(cfg, db, c);
    } else {
      OthersKeepReservations(cfg, db, c);
    }
  }

  lemma StepKeepsPermit(cfg: Config, db: Db, step: Step, id: TaskId, token: Token, permit: NetworkPermit)
    requires Fenced(db) && id in db.tasks && token in db.issued && StartedWith(db, id, token, permit)
    ensures StartedWith(Apply(cfg, db, step), id, token, permit)
  {
    hide Fenced, Advances, Apply, Permitted, Commit, RunsUnder, PermitOf;
    var db' := Apply(cfg, db, step);
    StepFenced(cfg, db, step);
    if RunsUnder(db', id, token) {
      SameAttempt(db, db', id, token);
      RunsHere(db', id, token);
      NewestAttempt(db', id);
      RunsHere(db, id, token);
      var c := StepCommits(cfg, db, step);
      PermitKept(cfg, db, c, id);
    }
  }

  lemma {:induction false} RunKeepsPermit(cfg: Config, db: Db, steps: seq<Step>, id: TaskId, token: Token, permit: NetworkPermit)
    requires Fenced(db) && id in db.tasks && token in db.issued && StartedWith(db, id, token, permit)
    ensures StartedWith(Run(cfg, db, steps), id, token, permit)
    decreases |steps|
  {
    hide Fenced, Apply, StartedWith, Settles;
    if steps != [] {
      var n := |steps| - 1;
      RunKeepsPermit(cfg, db, steps[..n], id, token, permit);
      RunSettles(cfg, db, steps[..n]);
      StillThere(cfg, db, steps[..n], id, token);
      StepKeepsPermit(cfg, Run(cfg, db, steps[..n]), steps[n], id, token, permit);
    }
  }

  lemma GrantedAttempt(cfg: Config, db: Db, source: Portal, id: TaskId, requested: int, now: Time)
    requires source in cfg.budgets && Runs(db, id)
    ensures var (db', route) := Grant(cfg, db, source, id, Newest(db, id), requested, now);
            id in db'.tasks && Newest(db', id) == Newest(db, id) && Newest(db', id) in db'.attempts && db.issued <= db'.issued
            && !db'.attempts[Newest(db', id)].route.Unassigned?
            && PermitOf(db'.attempts[Newest(db', id)]) == NetworkPermit(true, now, RouteClass(route), route)
  {
    hide SourceStateAt, LedgerAt, FirstRoute, ChargedSource, OpenUnder;
  }

  /** A granted reservation leaves the attempt with its permit. */
  lemma GrantStarts(cfg: Config, db: Db, worker: WorkerIdentity, lease: ScrapeLease, requested: int, now: Time)
    requires Fenced(db)
    requires var reply := ReserveStart(cfg, db, worker, lease, requested, now).1; reply.Ok? && reply.value.granted
    ensures var (db', reply) := ReserveStart(cfg, db, worker, lease, requested, now);
            StartedWith(db', lease.taskId, lease.token, reply.value) && lease.taskId in db'.tasks && lease.token in db'.issued
  {
    hide Fenced, AttemptOf, SourceStateAt, MayStart, Grant, OpenUnder, EarliestStart, NextDay;
    AdmittedFacts(db, worker, lease, now);
    NewestToken(db, lease.taskId);
    IssuedToken(db, lease.taskId);
    if db.attempts[Newest(db, lease.taskId)].route.Unassigned? {
      GrantedAttempt(cfg, db, worker.source, lease.taskId, requested, now);
    }
  }

  lemma ReservesFor(cfg: Config, db: Db, worker: WorkerIdentity, lease: ScrapeLease, requested: int, now: Time)
    requires ReserveStart(cfg, db, worker, lease, requested, now).1.Ok?
    ensures worker.source in cfg.budgets
  {
  }

  lemma AnswersAgain(cfg: Config, db: Db, worker: WorkerIdentity, lease: ScrapeLease, requested: int, now: Time, permit: NetworkPermit)
    requires Fenced(db) && Admitted(db, worker, lease, now) && worker.source in cfg.budgets && 0 <= requested <= 2_000_000
    requires StartedWith(db, lease.taskId, lease.token, permit)
    ensures ReserveStart(cfg, db, worker, lease, requested, now) == (db, Ok(permit))
  {
    hide Fenced, AttemptOf, SourceStateAt, MayStart, Grant, Refusal, OpenUnder, PointsAt;
    AdmittedFacts(db, worker, lease, now);
  }

  /** Repeating a reservation under a lease that is still current returns the permit it was granted and changes
      nothing: no pace, no daily count and no proxy bytes are charged again, whatever all parties did in between
      and whatever is asked for now. */
  lemma RepeatedReservation(cfg: Config, db: Db, worker: WorkerIdentity, lease: ScrapeLease, requested: int, now: Time,
                            after: seq<Step>, lease2: ScrapeLease, again: int, later: Time)
    requires Fenced(db)
    requires var first := ReserveStart(cfg, db, worker, lease, requested, now).1; first.Ok? && first.value.granted
    requires lease2.taskId == lease.taskId && lease2.token == lease.token && 0 <= again <= 2_000_000
    requires Admitted(Run(cfg, ReserveStart(cfg, db, worker, lease, requested, now).0, after), worker, lease2, later)
    ensures var (granted, first) := ReserveStart(cfg, db, worker, lease, requested, now);
            var db' := Run(cfg, granted, after);
            ReserveStart(cfg, db', worker, lease2, again, later) == (db', first)
  {
    hide Fenced, Apply, Run, ReserveStart, Admitted, Settles;
    var (granted, first) := ReserveStart(cfg, db, worker, lease, requested, now);
    ReserveKeepsFence(cfg, db, worker, lease, requested, now);
    GrantStarts(cfg, db, worker, lease, requested, now);
    RunSettles(cfg, granted, after);
    RunKeepsPermit(cfg, granted, after, lease.taskId, lease.token, first.value);
    ReservesFor(cfg, db, worker, lease, requested, now);
    AnswersAgain(cfg, Run(cfg, granted, after), worker, lease2, again, later, first.value);
  }
}
