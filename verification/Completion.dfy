/** Exactly-once completion: one production result per task, and idempotent acknowledgement of retries. */
module Completion {
  import opened Options
  import opened Contracts
  import opened ScrapeQueue
  import opened SourceBudget
  import opened Coordinator
  import opened Fencing
  import opened Changes
  import opened Frames
  import opened Effects
  import opened Fence
  import opened LeaseLife
  import ParserReleases
  import Calendar

  function Accepts(log: seq<Event>, id: TaskId): nat {
    if log == [] then 0
    else Accepts(log[..|log| - 1], id) + if log[|log| - 1].Accepted? && log[|log| - 1].task == id then 1 else 0
  }

  lemma AcceptsAppend(log: seq<Event>, more: seq<Event>, id: TaskId)
    requires |more| <= 1
    ensures Accepts(log + more, id) == Accepts(log, id) + if |more| == 1 && more[0].Accepted? && more[0].task == id then 1 else 0
  {
    if |more| == 1 {
      assert (log + more)[..|log|] == log;
    } else {
      assert log + more == log;
    }
  }

  predicate DoneTask(db: Db, id: TaskId) {
    id in db.tasks && db.tasks[id].state.Succeeded?
  }

  /** An acceptance is final: the task has succeeded, and every stored result stems from one. */
  ghost predicate OnceOnly(db: Db) {
    (forall id :: Accepts(db.log, id) <= 1)
    && (forall id :: Accepts(db.log, id) == 1 ==> DoneTask(db, id))
    && (forall id :: id in db.results ==> Accepts(db.log, id) == 1)
  }

  // ----- the results after a change

  predicate Producing(c: Change) { c.CaptureAccepted? || c.ReplayAccepted? }

  /** Results appear only for the accepted task, and otherwise only disappear. */
  predicate ResultsFrom(db: Db, db': Db, c: Change) {
    forall id :: id in db'.results ==>
      (id in db.results && db'.results[id] == db.results[id]) || (Producing(c) && id == c.id)
  }

  lemma ResultsAfter(cfg: Config, db: Db, c: Change)
    requires Permitted(cfg, db, c)
    ensures ResultsFrom(db, Commit(cfg, db, c), c)
  {
    hide Permitted, Commit;
    if Completing(c) {
      CompletingResults(cfg, db, c);
    } else if c.ResultsPurged? {
      PurgedResults(cfg, db, c);
    } else {
      ResultsKept(cfg, db, c);
    }
  }

  lemma CompletingResults(cfg: Config, db: Db, c: Change)
    requires Permitted(cfg, db, c) && Completing(c)
    ensures ResultsFrom(db, Commit(cfg, db, c), c)
  {
    hide Permitted, Commit, SucceededTask, ClosedAttempt, CaptureCode;
    EndCommits(cfg, db, c);
  }

  lemma PurgedResults(cfg: Config, db: Db, c: Change)
    requires Permitted(cfg, db, c) && c.ResultsPurged?
    ensures ResultsFrom(db, Commit(cfg, db, c), c)
  {
    hide PurgeRow;
  }

  lemma AcceptEvents(cfg: Config, db: Db, c: Change, id: TaskId)
    requires Permitted(cfg, db, c)
    ensures Accepts(db.log + Events(cfg, db, c), id) == Accepts(db.log, id) + if Producing(c) && c.id == id then 1 else 0
  {
    hide Permitted, Accepts, Grant;
    AcceptsAppend(db.log, Events(cfg, db, c), id);
  }

  lemma ProducingRow(cfg: Config, db: Db, c: Change)
    requires Permitted(cfg, db, c) && Producing(c)
    ensures c.id in db.tasks && db.tasks[c.id].state.Running?
    ensures NextRow(cfg, c, c.id, db.tasks[c.id]).state.Succeeded?
  {
    hide Current, OpenUnder, Calendar.TwoYearsAfter;
  }

  lemma ChangeOnce(cfg: Config, db: Db, c: Change)
    requires Fenced(db) && OnceOnly(db) && Permitted(cfg, db, c)
    ensures OnceOnly(Commit(cfg, db, c))
  {
    hide Fenced, Permitted, Commit, NextRow, Events, Accepts;
    var db' := Commit(cfg, db, c);
    ChangeEffect(cfg, db, c);
    ResultsAfter(cfg, db, c);
    ChangeFenced(cfg, db, c);
    if Producing(c) {
      ProducingRow(cfg, db, c);
    }
    forall id ensures Accepts(db'.log, id) <= 1 && (Accepts(db'.log, id) == 1 ==> DoneTask(db', id))
      && (id in db'.results ==> Accepts(db'.log, id) == 1)
    {
      AcceptEvents(cfg, db, c, id);
      if DoneTask(db, id) {
        assert TaskAdvances(db.tasks[id], db'.tasks[id], db.issued);
      }
    }
  }

  // ----- what later steps keep

  /** A terminal task gains no result, and one it has is kept as it is or purged; portals keep a pointer. */
  ghost predicate Retains(db: Db, db': Db) {
    (forall id :: id in db.tasks && Terminal(db.tasks[id].state) && id in db'.results ==>
       id in db.results && db'.results[id] == db.results[id])
    && (forall source :: source in db.pointers ==> source in db'.pointers)
    && (forall id :: id in db.discoveries ==> id in db'.discoveries && db'.discoveries[id] == db.discoveries[id])
  }

  predicate KeepsDiscoveries(db: Db, db': Db) {
    forall id :: id in db.discoveries ==> id in db'.discoveries && db'.discoveries[id] == db.discoveries[id]
  }

  lemma LeaseKeepsDiscoveries(cfg: Config, db: Db, c: Change)
    requires Permitted(cfg, db, c) && (c.LeaseTaken? || c.LeaseRenewed? || c.AttemptRefunded? || c.AttemptClosed?)
    ensures KeepsDiscoveries(db, Commit(cfg, db, c))
  {
    hide Permitted, Commit, ClaimedTask, NewAttempt, RefundedTask, FinishedTask, ClosedAttempt, Settled;
    LeaseCommits(cfg, db, c);
  }

  lemma EndKeepsDiscoveries(cfg: Config, db: Db, c: Change)
    requires Permitted(cfg, db, c) && (Completing(c) || c.HandedOff?)
    ensures KeepsDiscoveries(db, Commit(cfg, db, c))
  {
    hide Permitted, Commit, SucceededTask, ClosedAttempt, CaptureCode;
    EndCommits(cfg, db, c);
  }

  lemma BudgetKeepsDiscoveries(cfg: Config, db: Db, c: Change)
    requires Permitted(cfg, db, c) && Budgeting(c)
    ensures KeepsDiscoveries(db, Commit(cfg, db, c))
  {
    hide Permitted, Commit, SourceStateAt, LedgerAt, FirstRoute, FallbackConsumed, StartedAttempt, ChargedSource, ObservedSource,
         ObservedAttempt, Quarantined, FallbackTask;
    BudgetCommits(cfg, db, c);
  }

  lemma OtherKeepsDiscoveries(cfg: Config, db: Db, c: Change)
    requires Permitted(cfg, db, c)
    requires Releasing(c) || c.ResultsPurged? || c.Nothing? || c.WorkerSeen? || c.TaskAdded? || c.ReplayAdded?
             || c.HeldReleased? || c.Reaped? || c.RouteAdded?
    ensures KeepsDiscoveries(db, Commit(cfg, db, c))
  {
    hide Permitted, Commit, BindingOf, NewKey, Blank, ReapedTask, ReapedAttempt, AuditsOf, ParserReleases.Withdraw;
    if c.TaskAdded? || c.ReplayAdded? || c.HeldReleased? || c.Reaped? {
      QueueCommits(cfg, db, c);
    } else {
      RegistryCommits(cfg, db, c);
    }
  }

  lemma PointersGrow(cfg: Config, db: Db, c: Change)
    requires Permitted(cfg, db, c)
    ensures forall source :: source in db.pointers ==> source in Commit(cfg, db, c).pointers
  {
    hide Permitted, Commit;
    if Releasing(c) {
      ReleasingPointers(cfg, db, c);
    } else {
      ReleasesKept(cfg, db, c);
    }
  }

  lemma ReleasingPointers(cfg: Config, db: Db, c: Change)
    requires Permitted(cfg, db, c) && Releasing(c)
    ensures forall source :: source in db.pointers ==> source in Commit(cfg, db, c).pointers
  {
    hide ParserReleases.Withdraw, AuditsOf, ParserReleases.CurrentRelease, ParserReleases.CurrentEpoch;
  }

  lemma ChangeRetains(cfg: Config, db: Db, c: Change)
    requires Permitted(cfg, db, c)
    ensures Retains(db, Commit(cfg, db, c))
  {
    hide Permitted, Commit, KeepsDiscoveries;
    ResultsAfter(cfg, db, c);
    PointersGrow(cfg, db, c);
    if Producing(c) {
      ProducingRow(cfg, db, c);
    }
    if Completing(c) || c.HandedOff? {
      EndKeepsDiscoveries(cfg, db, c);
    } else if Budgeting(c) {
      BudgetKeepsDiscoveries(cfg, db, c);
    } else if c.LeaseTaken? || c.LeaseRenewed? || c.AttemptRefunded? || c.AttemptClosed? {
      LeaseKeepsDiscoveries(cfg, db, c);
    } else {
      OtherKeepsDiscoveries(cfg, db, c);
    }
    KeptDiscoveries(db, Commit(cfg, db, c));
  }

  lemma KeptDiscoveries(db: Db, db': Db)
    requires KeepsDiscoveries(db, db')
    ensures forall id :: id in db.discoveries ==> id in db'.discoveries && db'.discoveries[id] == db.discoveries[id]
  {
  }

  lemma RetainsTransitive(db: Db, mid: Db, db': Db)
    requires Retains(db, mid) && Settles(db, mid) && Retains(mid, db')
    ensures Retains(db, db')
  {
    hide LeaseLife.Live;
  }

  /** Both facts survive every interleaving. */
  lemma {:induction false} RunRetains(cfg: Config, db: Db, steps: seq<Step>)
    requires Fenced(db) && OnceOnly(db)
    ensures var db' := Run(cfg, db, steps); Fenced(db') && OnceOnly(db') && Settles(db, db') && Retains(db, db')
    decreases |steps|
  {
    hide Fenced, OnceOnly, Settles, Apply, Permitted, Commit;
    RunSettles(cfg, db, steps);
    if steps != [] {
      var n := |steps| - 1;
      RunRetains(cfg, db, steps[..n]);
      RunSettles(cfg, db, steps[..n]);
      var mid := Run(cfg, db, steps[..n]);
      var c := StepCommits(cfg, mid, steps[n]);
      ChangeOnce(cfg, mid, c);
      ChangeRetains(cfg, mid, c);
      RetainsTransitive(db, mid, Commit(cfg, mid, c));
    }
  }

  lemma EmptyOnce()
    ensures OnceOnly(EMPTY)
  {
  }

  /** Whatever the interleaving, a task gains at most one production result, and only by succeeding. */
  lemma OneResultPerTask(cfg: Config, steps: seq<Step>, id: TaskId)
    ensures var db := Run(cfg, EMPTY, steps);
            Accepts(db.log, id) <= 1
            && (Accepts(db.log, id) == 1 ==> id in db.tasks && db.tasks[id].state.Succeeded?)
            && (id in db.results ==> Accepts(db.log, id) == 1)
  {
    hide Fenced, Accepts;
    EmptyFenced();
    EmptyOnce();
    RunRetains(cfg, EMPTY, steps);
  }

  // ----- retries

  /** An acknowledged completion leaves behind exactly what a retry is compared with. */
  lemma AcceptedIsRecorded(cfg: Config, db: Db, worker: WorkerIdentity, lease: ScrapeLease, outcome: CaptureOutcome, clock: Clock)
    requires Fenced(db) && OnceOnly(db) && !lease.taskClass.DiscoveryCapture?
    requires Complete(db, worker, lease, outcome, clock).1.Ok?
    ensures var db' := Complete(db, worker, lease, outcome, clock).0;
            SameCompletion(db', worker, lease, outcome) && worker.source in db'.pointers && DoneTask(db', lease.taskId)
            && OutcomeAccepted(lease, outcome, clock.now)
  {
    hide Fenced, OpenUnder, Calendar.TwoYearsAfter, Calendar.Instant, Accepts;
    if lease.taskId !in db.results {
      LeasedFacts(db, worker, lease, clock);
      NewestToken(db, lease.taskId);
      NewestOwner(db, lease.taskId);
    }
  }

  lemma NewestOwner(db: Db, id: TaskId)
    requires Runs(db, id)
    ensures db.tasks[id].leaseOwner == Some(db.attempts[Newest(db, id)].workerId)
  {
  }

  lemma SameCompletionKept(db: Db, db': Db, worker: WorkerIdentity, lease: ScrapeLease, outcome: CaptureOutcome)
    requires SameCompletion(db, worker, lease, outcome) && DoneTask(db, lease.taskId)
    requires Settles(db, db') && Retains(db, db') && lease.taskId in db'.results
    ensures SameCompletion(db', worker, lease, outcome)
  {
    hide LeaseLife.Live;
  }

  /** Once an outcome was acknowledged, every retry of the same lease and outcome by the same worker is
      acknowledged again and changes nothing, whatever happened since (expiry, other claims, activations),
      for as long as the result is retained and the clock has not gone back before the fetch. */
  lemma RetryIsAcknowledged(cfg: Config, before: seq<Step>, worker: WorkerIdentity, lease: ScrapeLease, outcome: CaptureOutcome,
                            clock: Clock, after: seq<Step>, later: Clock)
    requires !lease.taskClass.DiscoveryCapture? && Calendar.Instant(outcome.fetchedAt) <= later.now
    requires Complete(Run(cfg, EMPTY, before), worker, lease, outcome, clock).1.Ok?
    requires lease.taskId in Run(cfg, Complete(Run(cfg, EMPTY, before), worker, lease, outcome, clock).0, after).results
    ensures var db := Run(cfg, Complete(Run(cfg, EMPTY, before), worker, lease, outcome, clock).0, after);
            Complete(db, worker, lease, outcome, later) == (db, Ok(()))
  {
    hide Fenced, OnceOnly, Settles, Retains, Apply, Complete, SameCompletion, Permitted, Commit, Calendar.Instant;
    EmptyFenced();
    EmptyOnce();
    RunRetains(cfg, EMPTY, before);
    var db0 := Run(cfg, EMPTY, before);
    AcceptedIsRecorded(cfg, db0, worker, lease, outcome, clock);
    var c := CompleteChange(cfg, db0, worker, lease, outcome, clock);
    ChangeOnce(cfg, db0, c);
    ChangeFenced(cfg, db0, c);
    var db1 := Commit(cfg, db0, c);
    RunRetains(cfg, db1, after);
    SameCompletionKept(db1, Run(cfg, db1, after), worker, lease, outcome);
    KeptPointer(db1, Run(cfg, db1, after), worker.source);
    RetryReply(Run(cfg, db1, after), worker, lease, outcome, later);
  }

  lemma KeptPointer(db: Db, db': Db, source: Portal)
    requires Retains(db, db') && source in db.pointers
    ensures source in db'.pointers
  {
  }

  lemma RetryReply(db: Db, worker: WorkerIdentity, lease: ScrapeLease, outcome: CaptureOutcome, clock: Clock)
    requires OutcomeAccepted(lease, outcome, clock.now) && !lease.taskClass.DiscoveryCapture?
    requires worker.source in db.pointers && SameCompletion(db, worker, lease, outcome)
    ensures Complete(db, worker, lease, outcome, clock) == (db, Ok(()))
  {
  }

  /** The lease names an attempt of its task, under that attempt's own token and worker. */
  predicate NamesAttempt(db: Db, worker: WorkerIdentity, lease: ScrapeLease) {
    var k := AttemptKey(lease.taskId, lease.attemptNumber);
    k in db.attempts && db.attempts[k].token == lease.token && db.attempts[k].workerId == worker.workerId
  }

  /** The parts of two leases that the acknowledgement compares; expiry and URL are not among them. */
  predicate SamePin(l: ScrapeLease, l2: ScrapeLease) {
    l2.taskClass == l.taskClass && l2.snapshotId == l.snapshotId
    && l2.releaseHash == l.releaseHash && l2.activationEpoch == l.activationEpoch
  }

  /** A completion for a task that already has its result changes nothing.  It is acknowledged exactly for the
      accepted outcome under a lease pinned like the accepted one, presented by the worker of the attempt it
      names.  That attempt need not be the accepted one: any attempt of the task will do. */
  lemma DifferingRetryIsRejected(cfg: Config, before: seq<Step>, worker: WorkerIdentity, lease: ScrapeLease, outcome: CaptureOutcome,
                                 clock: Clock, after: seq<Step>, worker2: WorkerIdentity, lease2: ScrapeLease, outcome2: CaptureOutcome,
                                 later: Clock)
    requires !lease.taskClass.DiscoveryCapture? && !lease2.taskClass.DiscoveryCapture? && lease2.taskId == lease.taskId
    requires Complete(Run(cfg, EMPTY, before), worker, lease, outcome, clock).1.Ok?
    requires lease.taskId in Run(cfg, Complete(Run(cfg, EMPTY, before), worker, lease, outcome, clock).0, after).results
    ensures var db := Run(cfg, Complete(Run(cfg, EMPTY, before), worker, lease, outcome, clock).0, after);
            Complete(db, worker2, lease2, outcome2, later).0 == db
            && (Complete(db, worker2, lease2, outcome2, later).1.Ok? <==>
                  OutcomeAccepted(lease2, outcome2, later.now) && outcome2 == outcome && worker2.source == worker.source
                  && SamePin(lease, lease2) && NamesAttempt(db, worker2, lease2))
            && NamesAttempt(db, worker, lease)
  {
    hide Fenced, OnceOnly, Settles, Retains, Apply, Complete, SameCompletion, Permitted, Commit, SamePin, NamesAttempt;
    EmptyFenced();
    EmptyOnce();
    RunRetains(cfg, EMPTY, before);
    var db0 := Run(cfg, EMPTY, before);
    AcceptedIsRecorded(cfg, db0, worker, lease, outcome, clock);
    var c := CompleteChange(cfg, db0, worker, lease, outcome, clock);
    ChangeOnce(cfg, db0, c);
    ChangeFenced(cfg, db0, c);
    var db1 := Commit(cfg, db0, c);
    RunRetains(cfg, db1, after);
    var db := Run(cfg, db1, after);
    SameCompletionKept(db1, db, worker, lease, outcome);
    KeptPointer(db1, db, worker.source);
    RetryMatches(db, worker, lease, outcome, worker2, lease2, outcome2, later);
  }

  lemma RetryMatches(db: Db, worker: WorkerIdentity, lease: ScrapeLease, outcome: CaptureOutcome,
                     worker2: WorkerIdentity, lease2: ScrapeLease, outcome2: CaptureOutcome, clock: Clock)
    requires SameCompletion(db, worker, lease, outcome) && lease2.taskId == lease.taskId && worker.source in db.pointers
    requires !lease2.taskClass.DiscoveryCapture?
    ensures Complete(db, worker2, lease2, outcome2, clock).0 == db
    ensures Complete(db, worker2, lease2, outcome2, clock).1.Ok? <==>
              OutcomeAccepted(lease2, outcome2, clock.now) && outcome2 == outcome && worker2.source == worker.source
              && SamePin(lease, lease2) && NamesAttempt(db, worker2, lease2)
    ensures NamesAttempt(db, worker, lease)
  {
  }

  /** An artifact replay has no such memory: once one is accepted, every completion of a replay of that task is
      refused, a retry of the accepted one included, and changes nothing. */
  lemma ReplayRetryIsRefused(cfg: Config, before: seq<Step>, worker: WorkerIdentity, lease: ScrapeLease, captureId: CaptureId, releaseHash: Hash,
                             content: string, missing: bool, clock: Clock, after: seq<Step>,
                             worker2: WorkerIdentity, lease2: ScrapeLease, captureId2: CaptureId, releaseHash2: Hash,
                             content2: string, missing2: bool, later: Clock)
    requires lease2.taskId == lease.taskId
    requires CompleteReplay(Run(cfg, EMPTY, before), worker, lease, captureId, releaseHash, content, missing, clock).1.Ok?
    ensures var db := Run(cfg, CompleteReplay(Run(cfg, EMPTY, before), worker, lease, captureId, releaseHash, content, missing, clock).0, after);
            var (db', reply) := CompleteReplay(db, worker2, lease2, captureId2, releaseHash2, content2, missing2, later);
            db' == db && !reply.Ok?
  {
    hide Fenced, Apply, Run, CompleteReplay, Permitted, Commit, Advances;
    ReachableFenced(cfg, before);
    var db0 := Run(cfg, EMPTY, before);
    var c := ReplayChange(cfg, db0, worker, lease, captureId, releaseHash, content, missing, clock);
    ChangeFenced(cfg, db0, c);
    ReplaySucceeds(db0, worker, lease, captureId, releaseHash, content, missing, clock);
    RunSettles(cfg, Commit(cfg, db0, c), after);
    DeadReplay(Run(cfg, Commit(cfg, db0, c), after), worker2, lease2, captureId2, releaseHash2, content2, missing2, later);
  }

  lemma ReplaySucceeds(db: Db, worker: WorkerIdentity, lease: ScrapeLease, captureId: CaptureId, releaseHash: Hash,
                       content: string, missing: bool, clock: Clock)
    requires CompleteReplay(db, worker, lease, captureId, releaseHash, content, missing, clock).1.Ok?
    ensures DoneTask(CompleteReplay(db, worker, lease, captureId, releaseHash, content, missing, clock).0, lease.taskId)
  {
    hide Leased;
    assert Leased(db, worker, lease, clock);
    LeasedTask(db, worker, lease, clock);
  }

  lemma LeasedTask(db: Db, worker: WorkerIdentity, lease: ScrapeLease, clock: Clock)
    requires Leased(db, worker, lease, clock)
    ensures lease.taskId in db.tasks
  {
  }

  /** A discovery capture is acknowledged again by its recorded row alone: no lease, worker or token is
      looked at, and the row never changes. */
  lemma DiscoveryRetry(cfg: Config, before: seq<Step>, worker: WorkerIdentity, lease: ScrapeLease, outcome: CaptureOutcome,
                       clock: Clock, after: seq<Step>, worker2: WorkerIdentity, outcome2: CaptureOutcome, later: Clock)
    requires lease.taskClass.DiscoveryCapture? && OutcomeAccepted(lease, outcome2, later.now)
    requires Complete(Run(cfg, EMPTY, before), worker, lease, outcome, clock).1.Ok?
    ensures var db := Run(cfg, Complete(Run(cfg, EMPTY, before), worker, lease, outcome, clock).0, after);
            Complete(db, worker2, lease, outcome2, later) ==
              (db, if outcome2.captureId == outcome.captureId && outcome2.artifactId == outcome.artifactId
                      && outcome2.contentHash == outcome.contentHash then Ok(()) else LostLease)
  {
    hide Fenced, OnceOnly, Settles, Apply, Complete, Permitted, Commit, OutcomeAccepted;
    EmptyFenced();
    EmptyOnce();
    RunRetains(cfg, EMPTY, before);
    var db0 := Run(cfg, EMPTY, before);
    DiscoveryRecorded(db0, worker, lease, outcome, clock);
    var c := CompleteChange(cfg, db0, worker, lease, outcome, clock);
    ChangeOnce(cfg, db0, c);
    ChangeFenced(cfg, db0, c);
    RunRetains(cfg, Commit(cfg, db0, c), after);
    DiscoveryReply(Run(cfg, Commit(cfg, db0, c), after), worker2, lease, outcome2, later);
  }

  lemma DiscoveryRecorded(db: Db, worker: WorkerIdentity, lease: ScrapeLease, outcome: CaptureOutcome, clock: Clock)
    requires lease.taskClass.DiscoveryCapture? && Complete(db, worker, lease, outcome, clock).1.Ok?
    ensures var db' := Complete(db, worker, lease, outcome, clock).0;
            outcome.artifactId.Some? && lease.taskId in db'.discoveries
            && db'.discoveries[lease.taskId] == Discovery(outcome.captureId, outcome.artifactId.value, outcome.contentHash)
  {
    hide Leased, Calendar.Instant;
  }

  lemma DiscoveryReply(db: Db, worker: WorkerIdentity, lease: ScrapeLease, outcome: CaptureOutcome, clock: Clock)
    requires lease.taskClass.DiscoveryCapture? && OutcomeAccepted(lease, outcome, clock.now) && lease.taskId in db.discoveries
    ensures outcome.artifactId.Some?
    ensures Complete(db, worker, lease, outcome, clock) ==
              (db, if db.discoveries[lease.taskId] == Discovery(outcome.captureId, outcome.artifactId.value, outcome.contentHash)
                   then Ok(()) else LostLease)
  {
  }
}
