/** Worker identities over whole runs. */
module WorkerRegistry {
  import opened Contracts
  import opened ScrapeQueue
  import opened SourceBudget
  import opened Coordinator
  import opened Fencing
  import opened Changes
  import opened Frames
  import opened Fence
  import opened LeaseLife

  /** Workers keep their portal and deployment, and are seen ever later. */
  predicate WorkersAdvance(db: Db, db': Db) {
    forall w :: w in db.workers ==>
      w in db'.workers && db'.workers[w].source == db.workers[w].source && db'.workers[w].deployment == db.workers[w].deployment
      && db.workers[w].heartbeatAt <= db'.workers[w].heartbeatAt
  }

  /** What a registration has checked: the same identity, and no earlier heartbeat. */
  predicate MayBeSeen(db: Db, worker: WorkerIdentity, row: Worker) {
    row.source == worker.source && row.deployment == worker.deployment
    && (worker.workerId in db.workers ==> Registered(db, worker) && db.workers[worker.workerId].heartbeatAt <= row.heartbeatAt)
  }

  lemma SeenGuard(cfg: Config, db: Db, c: Change)
    requires Permitted(cfg, db, c) && c.WorkerSeen?
    ensures MayBeSeen(db, c.worker, c.row)
  {
    hide Registered;
  }

  lemma SeenRow(cfg: Config, db: Db, c: Change)
    requires Permitted(cfg, db, c) && c.WorkerSeen?
    ensures Commit(cfg, db, c).workers == db.workers[c.worker.workerId := c.row]
  {
    hide Permitted, Commit;
    RegistryCommits(cfg, db, c);
  }

  lemma SeenAdvances(cfg: Config, db: Db, c: Change)
    requires Permitted(cfg, db, c) && c.WorkerSeen?
    ensures WorkersAdvance(db, Commit(cfg, db, c))
  {
    hide Permitted, Commit;
    SeenGuard(cfg, db, c);
    SeenRow(cfg, db, c);
  }

  lemma LeaseKeepsWorkers(cfg: Config, db: Db, c: Change)
    requires Permitted(cfg, db, c) && (c.LeaseTaken? || c.LeaseRenewed? || c.AttemptRefunded? || c.AttemptClosed?)
    ensures Commit(cfg, db, c).workers == db.workers
  {
    hide Permitted, Commit, ClaimedTask, NewAttempt, RefundedTask, FinishedTask, ClosedAttempt, Settled;
    LeaseCommits(cfg, db, c);
  }

  lemma EndKeepsWorkers(cfg: Config, db: Db, c: Change)
    requires Permitted(cfg, db, c) && (Completing(c) || c.HandedOff?)
    ensures Commit(cfg, db, c).workers == db.workers
  {
    hide Permitted, Commit, SucceededTask, ClosedAttempt, CaptureCode;
    EndCommits(cfg, db, c);
  }

  lemma BudgetKeepsWorkers(cfg: Config, db: Db, c: Change)
    requires Permitted(cfg, db, c) && Budgeting(c)
    ensures Commit(cfg, db, c).workers == db.workers
  {
    hide Permitted, Commit, SourceStateAt, LedgerAt, FirstRoute, FallbackConsumed, StartedAttempt, ChargedSource, ObservedSource,
         ObservedAttempt, Quarantined, FallbackTask;
    BudgetCommits(cfg, db, c);
  }

  lemma RegistryKeepsWorkers(cfg: Config, db: Db, c: Change)
    requires Permitted(cfg, db, c) && (Releasing(c) || c.ResultsPurged? || c.Nothing? || c.RouteAdded?)
    ensures Commit(cfg, db, c).workers == db.workers
  {
    hide Permitted, Commit, AuditsOf, ParserReleases.Withdraw, ParserReleases.CurrentEpoch, ParserReleases.CurrentRelease;
    RegistryCommits(cfg, db, c);
  }

  lemma BatchKeepsWorkers(cfg: Config, db: Db, c: Change)
    requires Permitted(cfg, db, c) && (c.TaskAdded? || c.ReplayAdded? || c.HeldReleased? || c.Reaped?)
    ensures Commit(cfg, db, c).workers == db.workers
  {
    hide Permitted, Commit, BindingOf, ReapedTask, ReapedAttempt;
    QueueCommits(cfg, db, c);
  }

  lemma ChangeAdvances(cfg: Config, db: Db, c: Change)
    requires Permitted(cfg, db, c)
    ensures WorkersAdvance(db, Commit(cfg, db, c))
  {
    hide Permitted, Commit;
    if c.WorkerSeen? {
      SeenAdvances(cfg, db, c);
    } else if c.LeaseTaken? || c.LeaseRenewed? || c.AttemptRefunded? || c.AttemptClosed? {
      LeaseKeepsWorkers(cfg, db, c);
    } else if Completing(c) || c.HandedOff? {
      EndKeepsWorkers(cfg, db, c);
    } else if Budgeting(c) {
      BudgetKeepsWorkers(cfg, db, c);
    } else if c.TaskAdded? || c.ReplayAdded? || c.HeldReleased? || c.Reaped? {
      BatchKeepsWorkers(cfg, db, c);
    } else {
      RegistryKeepsWorkers(cfg, db, c);
    }
  }

  lemma {:induction false} RunAdvances(cfg: Config, db: Db, steps: seq<Step>)
    requires Fenced(db)
    ensures Fenced(Run(cfg, db, steps)) && WorkersAdvance(db, Run(cfg, db, steps))
    decreases |steps|
  {
    hide Fenced, Apply, Permitted, Commit, Advances;
    if steps != [] {
      var n := |steps| - 1;
      RunAdvances(cfg, db, steps[..n]);
      var mid := Run(cfg, db, steps[..n]);
      var c := StepCommits(cfg, mid, steps[n]);
      ChangeFenced(cfg, mid, c);
      ChangeAdvances(cfg, mid, c);
    }
  }

  /** Registering a worker fixes its identity and its clock.  In every continuation its name belongs to this portal
      and deployment alone, and is only ever registered again for them, at no earlier time. */
  lemma IdentityIsPermanent(cfg: Config, before: seq<Step>, worker: WorkerIdentity, releases: set<Hash>, healthy: bool, now: Time,
                            after: seq<Step>, other: WorkerIdentity, releases2: set<Hash>, healthy2: bool, later: Time)
    requires RegisterWorker(Run(cfg, EMPTY, before), worker, releases, healthy, now).1.Ok? && other.workerId == worker.workerId
    ensures var db := Run(cfg, RegisterWorker(Run(cfg, EMPTY, before), worker, releases, healthy, now).0, after);
            (Registered(db, other) <==> other == worker)
            && (RegisterWorker(db, other, releases2, healthy2, later).1.Ok? ==> other == worker && now <= later)
  {
    hide Fenced, Apply, Run;
    ReachableFenced(cfg, before);
    RegisterKeepsFence(cfg, Run(cfg, EMPTY, before), worker, releases, healthy, now);
    RunAdvances(cfg, RegisterWorker(Run(cfg, EMPTY, before), worker, releases, healthy, now).0, after);
  }

  lemma RegisterKeepsFence(cfg: Config, db: Db, worker: WorkerIdentity, releases: set<Hash>, healthy: bool, now: Time)
    requires Fenced(db)
    ensures Fenced(RegisterWorker(db, worker, releases, healthy, now).0)
  {
    hide Fenced, Advances, Permitted, Commit, RegisterWorker;
    var c := WorkerChange(cfg, db, worker, releases, healthy, now);
    ChangeFenced(cfg, db, c);
  }
  /** A registration is accepted exactly for a new name, or for the portal and deployment the name belongs to and at no
      earlier time than the last one.  It then replaces what the worker had reported. */
  lemma RegisterExactly(db: Db, worker: WorkerIdentity, releases: set<Hash>, healthy: bool, now: Time)
    ensures var (db', reply) := RegisterWorker(db, worker, releases, healthy, now);
            (reply.Ok? <==>
               worker.workerId in db.workers ==>
                 var row := db.workers[worker.workerId];
                 row.source == worker.source && row.deployment == worker.deployment && row.heartbeatAt <= now)
            && db' == (if reply.Ok? then db.(workers := db.workers[worker.workerId := Worker(worker.source, worker.deployment, now, releases, healthy)])
                       else db)
  {
  }
}
