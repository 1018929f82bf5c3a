/** The queue's repository: each method is one transaction on the shared database. */
module QueueRepository {
  import opened Options
  import opened Contracts
  import opened DenialPolicy
  import opened Coordinator
  import opened Persistence
  import Q = ScrapeQueue
  import Calendar

  // ----- each transaction leaves the database intact

  lemma WorkerIntact(cfg: Config, db: Db, worker: WorkerIdentity, releases: set<Hash>, healthy: bool, now: Time)
    requires Intact(db)
    ensures Intact(Q.RegisterWorker(db, worker, releases, healthy, now).0)
  {
    hide Intact, Q.RegisterWorker;
    StepIntact(cfg, db, RegisterWorkerStep(worker, releases, healthy, now));
  }

  lemma EnqueueIntact(cfg: Config, db: Db, id: TaskId, source: Portal, snapshotId: int, url: Option<Url>, taskClass: TaskClass,
                      release: Option<Hash>, now: Time)
    requires Intact(db)
    ensures Intact(Q.Enqueue(db, id, source, snapshotId, url, taskClass, release, now).0)
  {
    hide Intact, Q.Enqueue;
    StepIntact(cfg, db, EnqueueStep(id, source, snapshotId, url, taskClass, release, now));
  }

  lemma ReapIntact(cfg: Config, db: Db, rows: seq<TaskId>, limit: int, locked: set<TaskId>, now: Time)
    requires Intact(db) && Q.ReapRows(db, now, limit, locked, rows)
    ensures Intact(Q.Reap(cfg, db, RowSet(rows), now))
  {
    hide Intact, Q.Reap, Q.ReapRows;
    StepIntact(cfg, db, ReapStep(rows, limit, locked, now));
  }

  lemma ClaimIntact(cfg: Config, db: Db, worker: WorkerIdentity, classes: set<TaskClass>, locked: set<TaskId>,
                    pick: Option<TaskId>, token: Token, now: Time, current: Time)
    requires Intact(db) && Q.ClaimRow(cfg, db, worker, classes, locked, now, pick) && token !in db.issued
    ensures Intact(Q.Claim(cfg, db, worker, pick, token, now, current).0)
  {
    hide Intact, Q.Claim, Q.ClaimRow;
    StepIntact(cfg, db, ClaimStep(worker, classes, locked, pick, token, now, current));
  }

  lemma HeartbeatIntact(cfg: Config, db: Db, worker: WorkerIdentity, lease: ScrapeLease, clock: Clock)
    requires Intact(db)
    ensures Intact(Q.Heartbeat(cfg, db, worker, lease, clock).0)
  {
    hide Intact, Q.Heartbeat;
    StepIntact(cfg, db, HeartbeatStep(worker, lease, clock));
  }

  lemma FinishIntact(cfg: Config, db: Db, worker: WorkerIdentity, lease: ScrapeLease, code: Code, bytes: int, availableAt: Time, clock: Clock)
    requires Intact(db)
    ensures Intact(Q.Succeed(cfg, db, worker, lease, code, bytes, clock).0)
    ensures Intact(Q.Fail(cfg, db, worker, lease, code, clock).0)
    ensures Intact(Q.Defer(cfg, db, worker, lease, code, availableAt, clock).0)
  {
    hide Intact, Q.Succeed, Q.Fail, Q.Defer;
    StepIntact(cfg, db, SucceedStep(worker, lease, code, bytes, clock));
    StepIntact(cfg, db, FailStep(worker, lease, code, clock));
    StepIntact(cfg, db, DeferStep(worker, lease, code, availableAt, clock));
  }

  lemma CompleteIntact(cfg: Config, db: Db, worker: WorkerIdentity, lease: ScrapeLease, outcome: CaptureOutcome, clock: Clock)
    requires Intact(db)
    ensures Intact(Q.Complete(db, worker, lease, outcome, clock).0)
  {
    hide Intact, Q.Complete;
    StepIntact(cfg, db, CompleteStep(worker, lease, outcome, clock));
  }

  lemma ReplayIntact(cfg: Config, db: Db, worker: WorkerIdentity, lease: ScrapeLease, captureId: CaptureId, releaseHash: Hash,
                     content: string, missingFields: bool, clock: Clock)
    requires Intact(db)
    ensures Intact(Q.CompleteReplay(db, worker, lease, captureId, releaseHash, content, missingFields, clock).0)
  {
    hide Intact, Q.CompleteReplay;
    StepIntact(cfg, db, CompleteReplayStep(worker, lease, captureId, releaseHash, content, missingFields, clock));
  }

  /** A task with the key is the only one, so `enqueue` returns it. */
  lemma EnqueueFinds(db: Db, id: TaskId, source: Portal, snapshotId: int, url: Option<Url>, taskClass: TaskClass, release: Option<Hash>,
                     now: Time, pin: Pointer, found: TaskId)
    requires Intact(db) && Q.Selected(db, source, taskClass, release) == Some(pin) && url.Some?
    requires Q.HasKey(db, Q.IdentityKey(source, snapshotId, url.value, taskClass, pin.releaseHash, pin.epoch), found)
    ensures Q.Enqueue(db, id, source, snapshotId, url, taskClass, release, now) == (db, Ok(found))
  {
    hide Intact, Q.Selected, Q.IdentityKey, Q.HasKey, Q.NewTask;
    OneHolder(db, Q.IdentityKey(source, snapshotId, url.value, taskClass, pin.releaseHash, pin.epoch), found);
  }

  /** One more expired lease reaped. */
  lemma ReapNext(cfg: Config, db: Db, done: set<TaskId>, id: TaskId, now: Time)
    requires id in db.tasks && id !in done
    ensures var mid := Q.Reap(cfg, db, done, now);
            var k := AttemptKey(id, db.tasks[id].attemptCount);
            id in mid.tasks && mid.tasks[id] == db.tasks[id]
            && Q.Reap(cfg, db, done + {id}, now)
               == mid.(tasks := mid.tasks[id := Q.ReapedTask(cfg.queue, db.tasks[id], now)],
                       attempts := if k in mid.attempts then mid.attempts[k := Q.ReapedAttempt(mid.attempts[k], now)] else mid.attempts)
  {
    hide Q.ReapedTask, Q.ReapedAttempt;
    var mid, next := Q.Reap(cfg, db, done, now), Q.Reap(cfg, db, done + {id}, now);
    var k := AttemptKey(id, db.tasks[id].attemptCount);
    assert next.tasks == mid.tasks[id := Q.ReapedTask(cfg.queue, db.tasks[id], now)];
    assert next.attempts == if k in mid.attempts then mid.attempts[k := Q.ReapedAttempt(mid.attempts[k], now)] else mid.attempts;
  }

  lemma ReapNothing(cfg: Config, db: Db, now: Time)
    ensures Q.Reap(cfg, db, {}, now) == db
  {
    hide Q.ReapedTask, Q.ReapedAttempt;
    assert Q.Reap(cfg, db, {}, now).tasks == db.tasks;
    assert Q.Reap(cfg, db, {}, now).attempts == db.attempts;
  }

  class ScrapeQueueRepository {
    const database: Database
    const cfg: Config

    constructor (database: Database, cfg: Config)
      ensures this.database == database && this.cfg == cfg
    {
      this.database, this.cfg := database, cfg;
    }

    /** `register_worker`. */
    method RegisterWorker(worker: WorkerIdentity, releases: set<Hash>, healthy: bool, now: Time) returns (reply: Reply<()>)
      requires database.Valid()
      modifies database
      ensures database.Valid()
      ensures (database.State(), reply) == Q.RegisterWorker(old(database.State()), worker, releases, healthy, now)
    {
      hide Intact;
      WorkerIntact(cfg, database.State(), worker, releases, healthy, now);
      if worker.workerId in database.workers {
        var row := database.workers[worker.workerId];
        if row.source != worker.source || row.deployment != worker.deployment {
          return Invalid;
        }
        if row.heartbeatAt > now {
          return Invalid;
        }
      }
      database.workers := database.workers[worker.workerId := Worker(worker.source, worker.deployment, now, releases, healthy)];
      reply := Ok(());
    }

    /** The task with this idempotency key, if any. */
    method FindKey(key: IdempotencyKey) returns (found: Option<TaskId>)
      ensures found.Some? ==> Q.HasKey(database.State(), key, found.value)
      ensures found.None? ==> forall id :: !Q.HasKey(database.State(), key, id)
    {
      var rest := database.tasks.Keys;
      while rest != {}
        invariant rest <= database.tasks.Keys
        invariant forall id :: id in database.tasks && id !in rest ==> database.tasks[id].key != key
        decreases |rest|
      {
        assert (forall id :: id !in rest) ==> rest == {};
        var id :| id in rest;
        rest := rest - {id};
        if database.tasks[id].key == key {
          return Some(id);
        }
      }
      found := None;
    }

    /** `enqueue`; `id` is the new task's UUID. */
    method Enqueue(id: TaskId, source: Portal, snapshotId: int, url: Option<Url>, taskClass: TaskClass, release: Option<Hash>, now: Time)
      returns (reply: Reply<TaskId>)
      requires database.Valid()
      modifies database
      ensures database.Valid()
      ensures (database.State(), reply) == Q.Enqueue(old(database.State()), id, source, snapshotId, url, taskClass, release, now)
    {
      hide Intact, Q.NewTask, Q.IdentityKey, Q.HasKey;
      EnqueueIntact(cfg, database.State(), id, source, snapshotId, url, taskClass, release, now);
      var pin: Pointer;
      if taskClass.DiscoveryCapture? {
        if release.None? || release.value !in database.releases || database.releases[release.value].source != source
           || database.releases[release.value].status.Revoked? {
          return Invalid;
        }
        pin := Pointer(release.value, 1);
      } else {
        if release.Some? || source !in database.pointers {
          return Invalid;
        }
        pin := database.pointers[source];
      }
      assert Q.Selected(database.State(), source, taskClass, release) == Some(pin);
      if url.None? {
        return Invalid;
      }
      var key := Q.IdentityKey(source, snapshotId, url.value, taskClass, pin.releaseHash, pin.epoch);
      var existing := FindKey(key);
      if existing.Some? {
        EnqueueFinds(database.State(), id, source, snapshotId, url, taskClass, release, now, pin, existing.value);
        return Ok(existing.value);
      }
      if id in database.tasks {
        return Conflict;
      }
      ghost var before := database.State();
      database.tasks := database.tasks[id := Q.NewTask(source, snapshotId, url.value, taskClass, pin.releaseHash, pin.epoch, key, now)];
      reply := Ok(id);
      assert (database.State(), reply) == Q.Enqueue(before, id, source, snapshotId, url, taskClass, release, now);
    }

    // ----- expiry

    method EarliestExpiry(rest: set<TaskId>) returns (first: TaskId)
      requires rest != {}
      requires forall id :: id in rest ==> id in database.tasks && database.tasks[id].leaseExpiresAt.Some?
      ensures first in rest && forall id :: id in rest && id != first ==> Q.ReapBefore(database.State(), first, id)
    {
      assert (forall id :: id !in rest) ==> rest == {};
      first :| first in rest;
      var left := rest - {first};
      while left != {}
        invariant first in rest && left <= rest && first !in left
        invariant forall id :: id in rest && id !in left && id != first ==> Q.ReapBefore(database.State(), first, id)
        decreases |left|
      {
        assert (forall id :: id !in left) ==> left == {};
        var id :| id in left;
        left := left - {id};
        var x, y := database.tasks[id].leaseExpiresAt.value, database.tasks[first].leaseExpiresAt.value;
        if x < y || (x == y && id < first) {
          first := id;
        }
      }
    }

    /** The reaping query: the first `limit` expired leases that no other transaction has locked. */
    method ExpiredTasks(now: Time, limit: nat, locked: set<TaskId>) returns (rows: seq<TaskId>)
      ensures Q.ReapRows(database.State(), now, limit, locked, rows)
    {
      ghost var db := database.State();
      rows := [];
      var rest := set id | id in database.tasks && id !in locked && database.tasks[id].state.Running?
        && database.tasks[id].leaseExpiresAt.Some? && database.tasks[id].leaseExpiresAt.value <= now;
      while rest != {} && |rows| < limit
        invariant |rows| <= limit
        invariant forall id :: id in rest || id in rows <==> Q.Expired(db, now, id) && id !in locked
        invariant forall id :: id in rest ==> id !in rows
        invariant forall i :: 0 <= i < |rows| ==> Q.Expired(db, now, rows[i]) && rows[i] !in locked
        invariant forall i, j :: 0 <= i < j < |rows| ==> Q.ReapBefore(db, rows[i], rows[j])
        invariant forall i, id :: 0 <= i < |rows| && id in rest ==> Q.ReapBefore(db, rows[i], id)
        decreases limit - |rows|
      {
        var first := EarliestExpiry(rest);
        rows := rows + [first];
        rest := rest - {first};
      }
    }

    /** `reap_expired`: every selected lease ends, as pending or, on its last attempt, as failed. */
    method ReapExpired(now: Time, limit: nat, locked: set<TaskId>) returns (rows: seq<TaskId>)
      requires database.Valid()
      modifies database
      ensures database.Valid()
      ensures Q.ReapRows(old(database.State()), now, limit, locked, rows)
      ensures database.State() == Q.Reap(cfg, old(database.State()), RowSet(rows), now)
    {
      hide Intact, Q.ReapRows, Q.Reap;
      ghost var before := database.State();
      rows := ExpiredTasks(now, limit, locked);
      ReapIntact(cfg, before, rows, limit, locked, now);
      ReapNothing(cfg, before, now);
      assert RowSet(rows[..0]) == {};
      for i := 0 to |rows|
        invariant database.State() == Q.Reap(cfg, before, RowSet(rows[..i]), now)
      {
        var id := rows[i];
        DistinctRows(before, now, limit, locked, rows, i);
        ReapNext(cfg, before, RowSet(rows[..i]), id, now);
        assert RowSet(rows[..i + 1]) == RowSet(rows[..i]) + {id};
        var task := database.tasks[id];
        task := task.(state := if task.attemptCount >= cfg.queue.maxAttempts then Failed else Pending, availableAt := now);
        if task.state.Failed? {
          task := task.(finishedAt := Some(now));
        }
        var k := AttemptKey(id, task.attemptCount);
        if k in database.attempts {
          database.attempts := database.attempts[k :=
            database.attempts[k].(finishedAt := Some(now), outcome := Some(AttemptExpired), code := Some(LeaseExpired))];
        }
        database.tasks := database.tasks[id := ClearLease(task)];
      }
      assert rows[..|rows|] == rows;
    }

    // ----- claiming

    /** The first row of the claim query. */
    method FirstClaimable(worker: WorkerIdentity, classes: set<TaskClass>, locked: set<TaskId>, now: Time) returns (pick: Option<TaskId>)
      ensures Q.ClaimRow(cfg, database.State(), worker, classes, locked, now, pick)
    {
      pick := None;
      var rest := database.tasks.Keys;
      while rest != {}
        invariant rest <= database.tasks.Keys
        invariant pick.Some? ==>
          pick.value !in rest && Q.ClaimCandidate(cfg, database.State(), worker, classes, locked, now, pick.value)
        invariant forall id :: id !in rest && Q.ClaimCandidate(cfg, database.State(), worker, classes, locked, now, id) ==>
          pick.Some? && (id == pick.value || Q.ClaimBefore(database.State(), pick.value, id))
        decreases |rest|
      {
        assert (forall id :: id !in rest) ==> rest == {};
        var id :| id in rest;
        rest := rest - {id};
        var t := database.tasks[id];
        if id !in locked && t.source == worker.source && t.taskClass in classes
           && (worker.source in database.pointers || t.taskClass.DiscoveryCapture?)
           && (t.state.Pending? || t.state.Deferred?) && t.attemptCount < cfg.queue.maxAttempts && t.availableAt <= now {
          if pick.None? || Earlier(t, id, database.tasks[pick.value], pick.value) {
            pick := Some(id);
          }
        }
      }
    }

    /** The query's order on two rows. */
    predicate Earlier(s: Task, a: TaskId, t: Task, b: TaskId) {
      s.priority < t.priority || (s.priority == t.priority
      && (s.availableAt < t.availableAt || (s.availableAt == t.availableAt
      && (s.createdAt < t.createdAt || (s.createdAt == t.createdAt && a < b)))))
    }

    /** The second transaction of `claim`, after expired leases have been reaped; `token` is a fresh UUID. */
    method ClaimTask(worker: WorkerIdentity, classes: set<TaskClass>, locked: set<TaskId>, token: Token, now: Time, current: Time)
      returns (lease: Option<ScrapeLease>, ghost pick: Option<TaskId>)
      requires database.Valid() && token !in database.issued
      modifies database
      ensures database.Valid()
      ensures Q.ClaimRow(cfg, old(database.State()), worker, classes, locked, now, pick)
      ensures (database.State(), lease) == Q.Claim(cfg, old(database.State()), worker, pick, token, now, current)
    {
      hide Intact, Q.ClaimRow;
      ghost var before := database.State();
      var first := FirstClaimable(worker, classes, locked, now);
      pick := first;
      ClaimIntact(cfg, before, worker, classes, locked, first, token, now, current);
      if worker.workerId !in database.workers {
        return None, pick;
      }
      var row := database.workers[worker.workerId];
      if !row.healthy || row.source != worker.source || row.deployment != worker.deployment
         || row.heartbeatAt <= now - Seconds(cfg.queue.workerHealthSeconds) {
        return None, pick;
      }
      if first.None? || row.heartbeatAt <= current - Seconds(cfg.queue.workerHealthSeconds) {
        return None, pick;
      }
      var id := first.value;
      PickIsTask(cfg, before, worker, classes, locked, now, id);
      var task := database.tasks[id];
      var pin := Pointer(task.releaseHash, task.activationEpoch);
      if task.taskClass.DiscoveryCapture? {
        if pin.releaseHash !in row.releases {
          return None, pick;
        }
      } else {
        if worker.source !in database.pointers || database.pointers[worker.source].releaseHash !in row.releases {
          return None, pick;
        }
        pin := database.pointers[worker.source];
      }
      WriteLease(worker, id, pin, token, current);
      var leased := database.tasks[id];
      lease := Some(ScrapeLease(id, leased.source, leased.snapshotId, leased.canonicalUrl, leased.taskClass, leased.releaseHash,
                                leased.activationEpoch, token, current + Seconds(cfg.queue.leaseSeconds), leased.attemptCount));
    }

    /** The rows of a claim. */
    method WriteLease(worker: WorkerIdentity, id: TaskId, pin: Pointer, token: Token, at: Time)
      requires id in database.tasks
      modifies database
      ensures database.State() == Q.TakeLease(cfg, old(database.State()), worker, id, pin, token, at)
    {
      hide Q.ClaimedTask;
      var row := ClaimedRow(database.tasks[id], worker, pin, token, at);
      database.tasks := database.tasks[id := row];
      database.attempts := database.attempts[AttemptKey(id, row.attemptCount) :=
        Attempt(token, worker.workerId, row.releaseHash, row.activationEpoch, at, None, None, None, Unassigned, None, 0, None, None, 0)];
      database.issued := database.issued + {token};
      database.log := database.log + [Claimed(id, token)];
    }

    /** The task row that a claim writes. */
    method ClaimedRow(task: Task, worker: WorkerIdentity, pin: Pointer, token: Token, at: Time) returns (row: Task)
      ensures row == Q.ClaimedTask(cfg.queue, task, pin, worker, token, at)
    {
      row := task.(releaseHash := pin.releaseHash, activationEpoch := pin.epoch);
      row := row.(state := Running, attemptCount := row.attemptCount + 1);
      row := row.(leaseOwner := Some(worker.workerId), leaseToken := Some(token), leaseStartedAt := Some(at),
                  leaseExpiresAt := Some(at + Seconds(cfg.queue.leaseSeconds)));
    }

    /** `claim`: reap first, then lease the first claimable task. */
    method Claim(worker: WorkerIdentity, classes: set<TaskClass>, locked: set<TaskId>, token: Token, now: Time, current: Time)
      returns (lease: Option<ScrapeLease>, ghost rows: seq<TaskId>, ghost pick: Option<TaskId>)
      requires database.Valid() && token !in database.issued
      modifies database
      ensures database.Valid()
      ensures Q.ReapRows(old(database.State()), now, 100, locked, rows)
      ensures var reaped := Q.Reap(cfg, old(database.State()), RowSet(rows), now);
              Q.ClaimRow(cfg, reaped, worker, classes, locked, now, pick)
              && (database.State(), lease) == Q.Claim(cfg, reaped, worker, pick, token, now, current)
    {
      hide Intact, Q.ClaimRow, Q.Claim, Q.ReapRows;
      var reaped := ReapExpired(now, 100, locked);
      rows := reaped;
      lease, pick := ClaimTask(worker, classes, locked, token, now, current);
    }

    // ----- under a lease

    /** `_leased`. */
    method LeasedTask(worker: WorkerIdentity, lease: ScrapeLease, clock: Clock) returns (task: Option<Task>)
      ensures task.Some? <==> Q.Leased(database.State(), worker, lease, clock)
      ensures task.Some? ==> lease.taskId in database.tasks && task.value == database.tasks[lease.taskId]
    {
      if worker.workerId !in database.workers {
        return None;
      }
      var identity := database.workers[worker.workerId];
      if identity.source != worker.source || identity.deployment != worker.deployment || lease.taskId !in database.tasks {
        return None;
      }
      var row := database.tasks[lease.taskId];
      if row.source != worker.source || !row.state.Running? || row.leaseOwner != Some(worker.workerId)
         || row.leaseToken != Some(lease.token) || row.leaseExpiresAt.None? || row.leaseExpiresAt.value <= clock.now {
        return None;
      }
      if row.leaseExpiresAt.value <= clock.checked || row.taskClass != lease.taskClass || row.snapshotId != lease.snapshotId
         || row.canonicalUrl != lease.canonicalUrl || row.attemptCount != lease.attemptNumber
         || lease.source != row.source || lease.releaseHash != row.releaseHash || lease.activationEpoch != row.activationEpoch {
        return None;
      }
      if !row.taskClass.DiscoveryCapture?
         && (worker.source !in database.pointers || database.pointers[worker.source] != Pointer(row.releaseHash, row.activationEpoch)) {
        return None;
      }
      task := Some(row);
    }

    /** `heartbeat`. */
    method Heartbeat(worker: WorkerIdentity, lease: ScrapeLease, clock: Clock) returns (reply: Reply<ScrapeLease>)
      requires database.Valid()
      modifies database
      ensures database.Valid()
      ensures (database.State(), reply) == Q.Heartbeat(cfg, old(database.State()), worker, lease, clock)
    {
      hide Intact, Q.Leased;
      HeartbeatIntact(cfg, database.State(), worker, lease, clock);
      var task := LeasedTask(worker, lease, clock);
      if task.None? || task.value.leaseStartedAt.None? {
        return LostLease;
      }
      var expires := Min(clock.current + Seconds(cfg.queue.leaseSeconds),
                         task.value.leaseStartedAt.value + Seconds(cfg.queue.maxLeaseSeconds));
      if expires <= clock.current {
        return LostLease;
      }
      database.tasks := database.tasks[lease.taskId := task.value.(leaseExpiresAt := Some(expires))];
      reply := Ok(lease.(expiresAt := expires));
    }

    /** The branch of `_finish` that gives an attempt back. */
    method RefundRows(id: TaskId, k: AttemptKey, availableAt: Option<Time>)
      requires id in database.tasks
      modifies database
      ensures database.State() == Q.RefundAttempt(old(database.State()), id, k, availableAt)
    {
      hide Q.RefundedTask;
      database.attempts := database.attempts - {k};
      var row := RefundedRow(database.tasks[id], availableAt);
      database.tasks := database.tasks[id := row];
      database.log := database.log + [Refunded(id)];
    }

    /** The task row that a refund writes. */
    method RefundedRow(task: Task, availableAt: Option<Time>) returns (row: Task)
      ensures row == Q.RefundedTask(task, availableAt)
    {
      row := task.(attemptCount := task.attemptCount - 1, state := Deferred);
      if availableAt.Some? {
        row := row.(availableAt := availableAt.value);
      }
      row := ClearLease(row);
    }

    /** The rest of `_finish`: a retry while attempts are left, no deferral once they are used up. */
    method CloseRows(id: TaskId, k: AttemptKey, f: Q.Finish, at: Time) returns (state: TaskState)
      requires id in database.tasks && k in database.attempts
      modifies database
      ensures database.State() == Q.CloseAttempt(cfg, old(database.State()), id, k, f, at)
      ensures state == Q.Settled(cfg.queue, old(database.tasks)[id], f, at).0
    {
      hide Q.Settled, Q.FinishedTask;
      var row;
      row, state := FinishedRow(database.tasks[id], f, at);
      var attempt := database.attempts[k].(finishedAt := Some(at), outcome := Some(Q.OutcomeOf(state)), code := Some(f.code),
                                           responseBytes := f.responseBytes);
      database.attempts := database.attempts[k := attempt];
      database.tasks := database.tasks[id := row];
    }

    /** The task row that a finish writes, and the state it settles on. */
    method FinishedRow(task: Task, f: Q.Finish, at: Time) returns (row: Task, state: TaskState)
      ensures row == Q.FinishedTask(cfg.queue, task, f, at) && state == Q.Settled(cfg.queue, task, f, at).0
    {
      hide Q.Backoff;
      state := f.state;
      var available := f.availableAt;
      if f.retry && task.attemptCount < cfg.queue.maxAttempts {
        state := Deferred;
        available := Some(at + Seconds(Q.Backoff(task.attemptCount)));
      }
      if state.Deferred? && task.attemptCount >= cfg.queue.maxAttempts {
        state := Failed;
      }
      row := task.(state := state);
      if state.Deferred? && available.Some? {
        row := row.(availableAt := available.value);
      }
      if state.Succeeded? || state.Failed? {
        row := row.(finishedAt := Some(at));
      }
      row := ClearLease(row);
    }

    /** `_finish`. */
    method Finish(worker: WorkerIdentity, lease: ScrapeLease, f: Q.Finish, clock: Clock) returns (reply: Reply<TaskState>)
      modifies database
      ensures (database.State(), reply) == Q.FinishLease(cfg, old(database.State()), worker, lease, f, clock)
    {
      hide Q.Leased, Q.RefundAttempt, Q.CloseAttempt, Q.Settled;
      if !(0 <= f.responseBytes <= 2_000_000) {
        return Invalid;
      }
      var leased := LeasedTask(worker, lease, clock);
      if leased.None? {
        return LostLease;
      }
      var k := AttemptKey(lease.taskId, leased.value.attemptCount);
      if k !in database.attempts || database.attempts[k].finishedAt.Some? {
        return LostLease;
      }
      if f.code.BudgetExhausted? {
        RefundRows(lease.taskId, k, f.availableAt);
        return Ok(Deferred);
      }
      var state := CloseRows(lease.taskId, k, f, clock.current);
      reply := Ok(state);
    }

    /** `succeed`. */
    method Succeed(worker: WorkerIdentity, lease: ScrapeLease, code: Code, bytes: int, clock: Clock) returns (reply: Reply<TaskState>)
      requires database.Valid()
      modifies database
      ensures database.Valid()
      ensures (database.State(), reply) == Q.Succeed(cfg, old(database.State()), worker, lease, code, bytes, clock)
    {
      hide Intact, Q.FinishLease;
      FinishIntact(cfg, database.State(), worker, lease, code, bytes, 0, clock);
      if code !in {Downloaded, Partial, ArtifactUnavailable} {
        return Invalid;
      }
      reply := Finish(worker, lease, Q.Finish(code, Succeeded, bytes, false, None), clock);
    }

    /** `fail`. */
    method Fail(worker: WorkerIdentity, lease: ScrapeLease, code: Code, clock: Clock) returns (reply: Reply<TaskState>)
      requires database.Valid()
      modifies database
      ensures database.Valid()
      ensures (database.State(), reply) == Q.Fail(cfg, old(database.State()), worker, lease, code, clock)
    {
      hide Intact, Q.FinishLease;
      FinishIntact(cfg, database.State(), worker, lease, code, 0, 0, clock);
      if code !in {TransportError, ParserError, InvalidTarget, ArtifactUnavailable} {
        return Invalid;
      }
      reply := Finish(worker, lease, Q.Finish(code, Failed, 0, code.TransportError?, None), clock);
    }

    /** `defer`. */
    method Defer(worker: WorkerIdentity, lease: ScrapeLease, code: Code, availableAt: Time, clock: Clock) returns (reply: Reply<TaskState>)
      requires database.Valid()
      modifies database
      ensures database.Valid()
      ensures (database.State(), reply) == Q.Defer(cfg, old(database.State()), worker, lease, code, availableAt, clock)
    {
      hide Intact, Q.FinishLease;
      FinishIntact(cfg, database.State(), worker, lease, code, 0, availableAt, clock);
      if code !in {PortalDenied, SourceCooldown, BudgetExhausted} || availableAt <= clock.now {
        return Invalid;
      }
      reply := Finish(worker, lease, Q.Finish(code, Deferred, 0, false, Some(availableAt)), clock);
    }

    // ----- completion

    /** The end of every completion: the attempt is closed and the task succeeds. */
    method CloseTask(id: TaskId, k: AttemptKey, code: Code, bytes: int, at: Time)
      requires id in database.tasks && k in database.attempts
      modifies database
      ensures database.State() == old(database.State()).(
                attempts := old(database.attempts)[k := Q.ClosedAttempt(old(database.attempts)[k], AttemptSucceeded, code, bytes, at)],
                tasks := old(database.tasks)[id := Q.SucceededTask(old(database.tasks)[id], at)])
    {
      database.attempts := database.attempts[k :=
        database.attempts[k].(finishedAt := Some(at), outcome := Some(AttemptSucceeded), code := Some(code), responseBytes := bytes)];
      database.tasks := database.tasks[id := ClearLease(database.tasks[id].(state := Succeeded, finishedAt := Some(at)))];
    }

    /** The discovery branch of `complete`. */
    method CompleteDiscovery(worker: WorkerIdentity, lease: ScrapeLease, outcome: CaptureOutcome, clock: Clock) returns (reply: Reply<()>)
      requires outcome.artifactId.Some?
      modifies database
      ensures (database.State(), reply) == Q.CompleteDiscovery(old(database.State()), worker, lease, outcome, clock)
    {
      hide Q.Leased, Q.SucceededTask, Q.ClosedAttempt, Calendar.Instant;
      var id := lease.taskId;
      var row := Discovery(outcome.captureId, outcome.artifactId.value, outcome.contentHash);
      if id in database.discoveries {
        return if database.discoveries[id] == row then Ok(()) else LostLease;
      }
      var leased := LeasedTask(worker, lease, clock);
      if leased.None? {
        return LostLease;
      }
      var task := leased.value;
      if task.leaseStartedAt.None? || Calendar.Instant(outcome.fetchedAt) < task.leaseStartedAt.value {
        return Invalid;
      }
      var used := ArtifactUsed(outcome.artifactId.value);
      if outcome.captureId in database.captures || used {
        return Conflict;
      }
      var k := AttemptKey(id, task.attemptCount);
      if k !in database.attempts {
        return LostLease;
      }
      database.captures := database.captures[outcome.captureId := Capture(task.snapshotId, outcome.fetchedAt, outcome.contentHash)];
      database.discoveries := database.discoveries[id := row];
      CloseTask(id, k, DiscoveryCaptured, outcome.sizeBytes, clock.current);
      reply := Ok(());
    }

    /** The unique constraint on the artifact of a discovery capture. */
    method ArtifactUsed(artifactId: int) returns (used: bool)
      ensures used <==> exists id :: id in database.discoveries && database.discoveries[id].artifactId == artifactId
    {
      var rest := database.discoveries.Keys;
      used := false;
      while rest != {} && !used
        invariant rest <= database.discoveries.Keys
        invariant used ==> exists id :: id in database.discoveries && database.discoveries[id].artifactId == artifactId
        invariant !used ==> forall id :: id in database.discoveries && id !in rest ==> database.discoveries[id].artifactId != artifactId
        decreases |rest|
      {
        assert (forall id :: id !in rest) ==> rest == {};
        var id :| id in rest;
        rest := rest - {id};
        used := database.discoveries[id].artifactId == artifactId;
      }
    }

    /** Whether a completion repeats the accepted one. */
    method RepeatsAccepted(worker: WorkerIdentity, lease: ScrapeLease, outcome: CaptureOutcome) returns (same: bool)
      requires lease.taskId in database.results
      ensures same <==> Q.SameCompletion(database.State(), worker, lease, outcome)
    {
      var prior := database.results[lease.taskId];
      var k := AttemptKey(lease.taskId, lease.attemptNumber);
      if lease.taskId !in database.tasks || k !in database.attempts {
        return false;
      }
      var task, attempt := database.tasks[lease.taskId], database.attempts[k];
      same := task.source == worker.source && task.taskClass == lease.taskClass && task.snapshotId == lease.snapshotId
        && prior.releaseHash == lease.releaseHash && prior.activationEpoch == lease.activationEpoch
        && prior.content == Fetched(outcome) && attempt.token == lease.token && attempt.workerId == worker.workerId;
    }

    /** The rows of an accepted capture. */
    method CaptureRows(id: TaskId, k: AttemptKey, outcome: CaptureOutcome, expiresAt: Time, at: Time)
      requires id in database.tasks && k in database.attempts
      modifies database
      ensures database.State() == Q.AcceptCapture(old(database.State()), id, k, outcome, expiresAt, at)
    {
      hide Q.SucceededTask, Q.ClosedAttempt, Q.CaptureCode;
      var task := database.tasks[id];
      database.captures := database.captures[outcome.captureId := Capture(task.snapshotId, outcome.fetchedAt, outcome.contentHash)];
      database.results := database.results[id :=
        ParserResult(outcome.captureId, task.releaseHash, task.activationEpoch, Fetched(outcome), expiresAt)];
      CloseTask(id, k, Q.CaptureCode(outcome), outcome.sizeBytes, at);
      database.log := database.log + [Accepted(id)];
    }

    /** `complete`. */
    method Complete(worker: WorkerIdentity, lease: ScrapeLease, outcome: CaptureOutcome, clock: Clock) returns (reply: Reply<()>)
      requires database.Valid()
      modifies database
      ensures database.Valid()
      ensures (database.State(), reply) == Q.Complete(old(database.State()), worker, lease, outcome, clock)
    {
      hide Intact, Q.Leased, Q.SameCompletion, Q.AcceptCapture, Q.CompleteDiscovery, Calendar.Instant, Calendar.TwoYearsAfter;
      CompleteIntact(cfg, database.State(), worker, lease, outcome, clock);
      if !Q.OutcomeAccepted(lease, outcome, clock.now) {
        return Invalid;
      }
      if lease.taskClass.DiscoveryCapture? {
        reply := CompleteDiscovery(worker, lease, outcome, clock);
        return;
      }
      if worker.source !in database.pointers {
        return Invalid;
      }
      var id := lease.taskId;
      if id in database.results {
        var same := RepeatsAccepted(worker, lease, outcome);
        return if same then Ok(()) else LostLease;
      }
      var leased := LeasedTask(worker, lease, clock);
      if leased.None? {
        return LostLease;
      }
      var task := leased.value;
      var expiry := Calendar.TwoYearsAfter(outcome.fetchedAt);
      if task.leaseStartedAt.None? || Calendar.Instant(outcome.fetchedAt) < task.leaseStartedAt.value || expiry.None? {
        return Invalid;
      }
      if outcome.captureId in database.captures {
        return Conflict;
      }
      var k := AttemptKey(id, task.attemptCount);
      if k !in database.attempts {
        return LostLease;
      }
      CaptureRows(id, k, outcome, Calendar.Instant(expiry.value), clock.current);
      reply := Ok(());
    }

    /** `complete_artifact_replay`. */
    method CompleteArtifactReplay(worker: WorkerIdentity, lease: ScrapeLease, captureId: CaptureId, releaseHash: Hash,
                                  content: string, missingFields: bool, clock: Clock) returns (reply: Reply<()>)
      requires database.Valid()
      modifies database
      ensures database.Valid()
      ensures (database.State(), reply)
              == Q.CompleteReplay(old(database.State()), worker, lease, captureId, releaseHash, content, missingFields, clock)
    {
      hide Intact, Q.Leased, Q.SucceededTask, Q.ClosedAttempt;
      ReplayIntact(cfg, database.State(), worker, lease, captureId, releaseHash, content, missingFields, clock);
      if !lease.taskClass.ArtifactRecovery? || releaseHash != lease.releaseHash {
        return Invalid;
      }
      var leased := LeasedTask(worker, lease, clock);
      if leased.None? {
        return LostLease;
      }
      var id, task := lease.taskId, leased.value;
      if id !in database.bindings || database.bindings[id].captureId != captureId {
        return LostLease;
      }
      if id in database.results {
        return Conflict;
      }
      var k := AttemptKey(id, task.attemptCount);
      if k !in database.attempts {
        return LostLease;
      }
      var binding := database.bindings[id];
      database.results := database.results[id :=
        ParserResult(binding.captureId, task.releaseHash, task.activationEpoch, Replayed(content), binding.resultExpiresAt)];
      CloseTask(id, k, if missingFields then Partial else Downloaded, database.attempts[k].responseBytes, clock.now);
      database.log := database.log + [Accepted(id)];
      reply := Ok(());
    }
  }

  lemma PickIsTask(cfg: Config, db: Db, worker: WorkerIdentity, classes: set<TaskClass>, locked: set<TaskId>, now: Time, id: TaskId)
    requires Q.ClaimRow(cfg, db, worker, classes, locked, now, Some(id))
    ensures id in db.tasks
  {
  }

  /** The reaping query names each row once. */
  lemma DistinctRows(db: Db, now: Time, limit: int, locked: set<TaskId>, rows: seq<TaskId>, i: nat)
    requires Q.ReapRows(db, now, limit, locked, rows) && i < |rows|
    ensures rows[i] in db.tasks && rows[i] !in RowSet(rows[..i])
  {
    var id := rows[i];
    forall j | 0 <= j < i ensures rows[j] != id {
      assert Q.ReapBefore(db, rows[j], rows[i]);
    }
  }
}
