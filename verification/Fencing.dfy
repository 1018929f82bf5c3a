/** Lease fencing: what every step of the coordinator keeps about tasks, leases and attempts. */
module Fencing {
  import opened Options
  import opened Contracts
  import opened ScrapeQueue
  import opened SourceBudget
  import opened Coordinator

  // ----- the invariant

  predicate NoLease(t: Task) {
    t.leaseOwner.None? && t.leaseToken.None? && t.leaseStartedAt.None? && t.leaseExpiresAt.None?
  }

  predicate FullLease(t: Task) {
    t.leaseOwner.Some? && t.leaseToken.Some? && t.leaseStartedAt.Some? && t.leaseExpiresAt.Some?
  }

  /** The open attempt of a running task: same token, worker, start, release and epoch as the lease. */
  predicate OpenUnder(a: Attempt, t: Task) {
    a.finishedAt.None?
    && t.leaseToken == Some(a.token) && t.leaseOwner == Some(a.workerId) && t.leaseStartedAt == Some(a.startedAt)
    && a.releaseHash == t.releaseHash && a.activationEpoch == t.activationEpoch
  }

  predicate TaskSound(db: Db, id: TaskId)
    requires id in db.tasks
  {
    var t := db.tasks[id];
    0 <= t.attemptCount
    && (if t.state.Running? then FullLease(t) else NoLease(t))
    && (forall n :: 1 <= n <= t.attemptCount ==> AttemptKey(id, n) in db.attempts)
    && (t.state.Running? ==> 1 <= t.attemptCount && OpenUnder(db.attempts[AttemptKey(id, t.attemptCount)], t))
  }

  predicate AttemptSound(db: Db, k: AttemptKey)
    requires k in db.attempts
  {
    k.task in db.tasks && 1 <= k.number <= db.tasks[k.task].attemptCount
    && db.attempts[k].token in db.issued
    && (db.attempts[k].finishedAt.None? <==> db.tasks[k.task].state.Running? && k.number == db.tasks[k.task].attemptCount)
  }

  ghost predicate DistinctTokens(db: Db) {
    forall j, k :: j in db.attempts && k in db.attempts && db.attempts[j].token == db.attempts[k].token ==> j == k
  }

  /** A task runs iff all four lease fields are set, otherwise none is; its attempts are numbered
      1..attempt_count with distinct tokens; exactly the newest attempt of a running task is open. */
  ghost predicate Fenced(db: Db) {
    (forall id :: id in db.tasks ==> TaskSound(db, id))
    && (forall k :: k in db.attempts ==> AttemptSound(db, k))
    && DistinctTokens(db)
  }

  lemma SoundTask(db: Db, id: TaskId)
    requires Fenced(db) && id in db.tasks
    ensures TaskSound(db, id)
  {
  }

  lemma NewestAttempt(db: Db, id: TaskId)
    requires Fenced(db) && id in db.tasks && db.tasks[id].state.Running?
    ensures AttemptKey(id, db.tasks[id].attemptCount) in db.attempts
    ensures OpenUnder(db.attempts[AttemptKey(id, db.tasks[id].attemptCount)], db.tasks[id])
  {
    SoundTask(db, id);
  }

  // ----- what a step may do to a task

  predicate Terminal(s: TaskState) { s.Succeeded? || s.Failed? }

  /** Identity never changes, a terminal row never changes, and a row only runs under the token it
      already ran under or under one that had never been drawn. */
  predicate TaskAdvances(t: Task, t': Task, issued: set<Token>) {
    t'.source == t.source && t'.snapshotId == t.snapshotId && t'.canonicalUrl == t.canonicalUrl
    && t'.taskClass == t.taskClass && t'.key == t.key && t'.createdAt == t.createdAt && t'.priority == t.priority
    && (Terminal(t.state) ==> t' == t)
    && (t'.state.Running? ==>
          (t.state.Running? && t'.leaseToken == t.leaseToken && t'.attemptCount == t.attemptCount
           && t'.releaseHash == t.releaseHash && t'.activationEpoch == t.activationEpoch)
          || (t'.leaseToken.Some? && t'.leaseToken.value !in issued))
  }

  ghost predicate Advances(db: Db, db': Db) {
    db.issued <= db'.issued
    && (forall id :: id in db.tasks ==> id in db'.tasks && TaskAdvances(db.tasks[id], db'.tasks[id], db.issued))
    && (forall id :: id in db'.tasks && id !in db.tasks ==> !db'.tasks[id].state.Running?)
    && (forall k :: k in db.attempts && k.task in db.tasks && Terminal(db.tasks[k.task].state)
          ==> k in db'.attempts && db'.attempts[k] == db.attempts[k])
  }

  // ----- the five ways a step touches tasks and attempts

  /** The rows other than `id`'s are the same on both sides. */
  ghost predicate OnlyTask(db: Db, db': Db, id: TaskId, t': Task) {
    db'.tasks == db.tasks[id := t']
    && db.issued <= db'.issued
    && (forall k :: k in db'.attempts && k.task != id ==> k in db.attempts && db'.attempts[k] == db.attempts[k])
    && (forall k :: k in db.attempts && k.task != id ==> k in db'.attempts)
  }

  lemma OtherTask(db: Db, db': Db, id: TaskId, t': Task, other: TaskId)
    requires OnlyTask(db, db', id, t') && other != id && other in db.tasks && TaskSound(db, other)
    ensures TaskSound(db', other)
  {
  }

  lemma OtherAttempt(db: Db, db': Db, id: TaskId, t': Task, k: AttemptKey)
    requires OnlyTask(db, db', id, t') && k.task != id && k in db'.attempts && k in db.attempts && AttemptSound(db, k)
    ensures AttemptSound(db', k)
  {
  }

  lemma TouchAdvances(db: Db, db': Db, id: TaskId, t': Task)
    requires OnlyTask(db, db', id, t')
    requires if id in db.tasks then TaskAdvances(db.tasks[id], t', db.issued) && !Terminal(db.tasks[id].state) else !t'.state.Running?
    ensures Advances(db, db')
  {
    forall other | other in db.tasks ensures TaskAdvances(db.tasks[other], db'.tasks[other], db.issued) {
      if other != id {
        SameTask(db.tasks[other], db.issued);
      }
    }
    hide TaskAdvances;
  }

  lemma TouchOne(db: Db, db': Db, id: TaskId, t': Task)
    requires Fenced(db) && OnlyTask(db, db', id, t')
    requires TaskSound(db', id)
    requires forall k :: k in db'.attempts && k.task == id ==> AttemptSound(db', k)
    requires DistinctTokens(db')
    requires if id in db.tasks then TaskAdvances(db.tasks[id], t', db.issued) && !Terminal(db.tasks[id].state) else !t'.state.Running?
    ensures Fenced(db') && Advances(db, db')
  {
    hide TaskSound, AttemptSound, DistinctTokens, TaskAdvances, Advances;
    TouchAdvances(db, db', id, t');
    forall other | other in db'.tasks ensures TaskSound(db', other) {
      if other != id {
        OtherTask(db, db', id, t', other);
      }
    }
    forall k | k in db'.attempts ensures AttemptSound(db', k) {
      if k.task != id {
        OtherAttempt(db, db', id, t', k);
      }
    }
  }

  lemma TokensStay(db: Db, db': Db, k: AttemptKey, a': Attempt)
    requires DistinctTokens(db) && k in db.attempts && a'.token == db.attempts[k].token && db'.attempts == db.attempts[k := a']
    ensures DistinctTokens(db')
  {
    forall i, j | i in db'.attempts && j in db'.attempts && db'.attempts[i].token == db'.attempts[j].token ensures i == j {
      assert db.attempts[i].token == db.attempts[j].token;
    }
  }

  lemma NewToken(db: Db, db': Db, k: AttemptKey, a': Attempt)
    requires DistinctTokens(db) && k !in db.attempts && a'.token !in db.issued && db'.attempts == db.attempts[k := a']
    requires forall j :: j in db.attempts ==> db.attempts[j].token in db.issued
    ensures DistinctTokens(db')
  {
  }

  /** Only the newest attempt of `id` is written. */
  lemma OneAttempt(db: Db, db': Db, id: TaskId, t': Task, k: AttemptKey, a': Attempt)
    requires k.task == id && db'.tasks == db.tasks[id := t'] && db'.attempts == db.attempts[k := a'] && db.issued <= db'.issued
    ensures OnlyTask(db, db', id, t')
  {
  }

  /** Closing the running lease of `id`: the newest attempt ends, the row keeps its attempt count. */
  lemma CloseLease(db: Db, db': Db, id: TaskId, t': Task, a': Attempt)
    requires Fenced(db) && id in db.tasks && db.tasks[id].state.Running?
    requires Released(db.tasks[id], t') && TaskAdvances(db.tasks[id], t', db.issued)
    requires var k := AttemptKey(id, db.tasks[id].attemptCount);
             k in db.attempts && a'.token == db.attempts[k].token && a'.finishedAt.Some?
             && db'.attempts == db.attempts[k := a']
    requires db'.tasks == db.tasks[id := t'] && db'.issued == db.issued
    ensures Fenced(db') && Advances(db, db')
  {
    hide OnlyTask, DistinctTokens, TaskAdvances, Advances;
    SoundTask(db, id);
    OneAttempt(db, db', id, t', AttemptKey(id, db.tasks[id].attemptCount), a');
    TokensStay(db, db', AttemptKey(id, db.tasks[id].attemptCount), a');
    ClosedSound(db, db', id, t', a');
    TouchOne(db, db', id, t');
  }

  lemma ClosedSound(db: Db, db': Db, id: TaskId, t': Task, a': Attempt)
    requires Fenced(db) && id in db.tasks && db.tasks[id].state.Running? && Released(db.tasks[id], t')
    requires var k := AttemptKey(id, db.tasks[id].attemptCount);
             k in db.attempts && a'.token == db.attempts[k].token && a'.finishedAt.Some?
             && db'.attempts == db.attempts[k := a']
    requires db'.tasks == db.tasks[id := t'] && db'.issued == db.issued
    ensures TaskSound(db', id) && forall k :: k in db'.attempts && k.task == id ==> AttemptSound(db', k)
  {
    hide DistinctTokens;
    assert TaskSound(db, id);
    forall k | k in db'.attempts && k.task == id ensures AttemptSound(db', k) {
      assert AttemptSound(db, k);
    }
  }

  /** Bookkeeping under a lease that stays open. */
  lemma KeepLease(db: Db, db': Db, id: TaskId, t': Task, a': Attempt)
    requires Fenced(db) && id in db.tasks && db.tasks[id].state.Running?
    requires SameLease(db.tasks[id], t') && TaskAdvances(db.tasks[id], t', db.issued)
    requires var k := AttemptKey(id, db.tasks[id].attemptCount);
             k in db.attempts && OpenUnder(a', t') && db'.attempts == db.attempts[k := a']
    requires db'.tasks == db.tasks[id := t'] && db'.issued == db.issued
    ensures Fenced(db') && Advances(db, db')
  {
    hide OnlyTask, DistinctTokens, TaskAdvances, Advances;
    NewestAttempt(db, id);
    OneAttempt(db, db', id, t', AttemptKey(id, db.tasks[id].attemptCount), a');
    TokensStay(db, db', AttemptKey(id, db.tasks[id].attemptCount), a');
    KeptSound(db, db', id, t', a');
    TouchOne(db, db', id, t');
  }

  lemma KeptSound(db: Db, db': Db, id: TaskId, t': Task, a': Attempt)
    requires Fenced(db) && id in db.tasks && db.tasks[id].state.Running? && SameLease(db.tasks[id], t')
    requires var k := AttemptKey(id, db.tasks[id].attemptCount);
             k in db.attempts && OpenUnder(a', t') && db'.attempts == db.attempts[k := a']
    requires db'.tasks == db.tasks[id := t'] && db'.issued == db.issued
    ensures TaskSound(db', id) && forall k :: k in db'.attempts && k.task == id ==> AttemptSound(db', k)
  {
    hide DistinctTokens;
    assert TaskSound(db, id);
    forall k | k in db'.attempts && k.task == id ensures AttemptSound(db', k) {
      assert AttemptSound(db, k);
    }
  }

  /** Claiming: a new attempt under a token never drawn before. */
  lemma OpenLease(db: Db, db': Db, id: TaskId, t': Task, a': Attempt)
    requires Fenced(db) && id in db.tasks && !db.tasks[id].state.Running? && !Terminal(db.tasks[id].state)
    requires t'.state.Running? && FullLease(t') && t'.attemptCount == db.tasks[id].attemptCount + 1
    requires OpenUnder(a', t') && a'.token !in db.issued && TaskAdvances(db.tasks[id], t', db.issued)
    requires db'.tasks == db.tasks[id := t'] && db'.attempts == db.attempts[AttemptKey(id, t'.attemptCount) := a']
    requires db'.issued == db.issued + {a'.token}
    ensures Fenced(db') && Advances(db, db')
  {
    hide OnlyTask, DistinctTokens, TaskAdvances, Advances, OpenUnder, FullLease;
    var k := AttemptKey(id, t'.attemptCount);
    forall j | j in db.attempts ensures db.attempts[j].token in db.issued && j != k {
      assert AttemptSound(db, j);
    }
    OneAttempt(db, db', id, t', k, a');
    NewToken(db, db', k, a');
    OpenedSound(db, db', id, t', a');
    TouchOne(db, db', id, t');
  }

  lemma OpenedSound(db: Db, db': Db, id: TaskId, t': Task, a': Attempt)
    requires Fenced(db) && id in db.tasks && !db.tasks[id].state.Running?
    requires t'.state.Running? && FullLease(t') && t'.attemptCount == db.tasks[id].attemptCount + 1 && OpenUnder(a', t')
    requires db'.tasks == db.tasks[id := t'] && db'.attempts == db.attempts[AttemptKey(id, t'.attemptCount) := a']
    requires db'.issued == db.issued + {a'.token}
    ensures TaskSound(db', id) && forall k :: k in db'.attempts && k.task == id ==> AttemptSound(db', k)
  {
    hide DistinctTokens, FullLease;
    assert TaskSound(db, id);
    forall k | k in db'.attempts && k.task == id ensures AttemptSound(db', k) {
      if k in db.attempts {
        assert AttemptSound(db, k);
      }
    }
  }

  /** Refunding: the newest attempt disappears with its lease. */
  lemma RefundLease(db: Db, db': Db, id: TaskId, t': Task)
    requires Fenced(db) && id in db.tasks && db.tasks[id].state.Running?
    requires !t'.state.Running? && NoLease(t') && t'.attemptCount == db.tasks[id].attemptCount - 1
    requires TaskAdvances(db.tasks[id], t', db.issued)
    requires db'.attempts == db.attempts - {AttemptKey(id, db.tasks[id].attemptCount)}
    requires db'.tasks == db.tasks[id := t'] && db'.issued == db.issued
    ensures Fenced(db') && Advances(db, db')
  {
    assert TaskSound(db, id);
    forall k | k in db'.attempts && k.task == id ensures AttemptSound(db', k) {
      assert AttemptSound(db, k);
    }
    TouchOne(db, db', id, t');
  }

  /** A row without a lease, new or not, that keeps its attempt count. */
  lemma IdleRow(db: Db, db': Db, id: TaskId, t': Task)
    requires Fenced(db) && !t'.state.Running? && NoLease(t')
    requires if id in db.tasks
             then !db.tasks[id].state.Running? && !Terminal(db.tasks[id].state) && t'.attemptCount == db.tasks[id].attemptCount
                  && TaskAdvances(db.tasks[id], t', db.issued)
             else t'.attemptCount == 0
    requires db'.tasks == db.tasks[id := t'] && db'.attempts == db.attempts && db'.issued == db.issued
    ensures Fenced(db') && Advances(db, db')
  {
    forall k | k in db'.attempts && k.task == id ensures AttemptSound(db', k) {
      assert AttemptSound(db, k);
    }
    assert id in db.tasks ==> TaskSound(db, id);
    TouchOne(db, db', id, t');
  }

  /** Steps that leave tasks, attempts and tokens alone. */
  lemma SameRows(db: Db, db': Db)
    requires Fenced(db)
    requires db'.tasks == db.tasks && db'.attempts == db.attempts && db'.issued == db.issued
    ensures Fenced(db') && Advances(db, db')
  {
    forall id | id in db'.tasks ensures TaskSound(db', id) { assert TaskSound(db, id); }
    forall k | k in db'.attempts ensures AttemptSound(db', k) { assert AttemptSound(db, k); }
  }

  // ----- the rows that the operations write

  predicate Released(t: Task, t': Task) {
    !t'.state.Running? && NoLease(t') && t'.attemptCount == t.attemptCount
  }

  lemma FinishedRow(queue: QueuePolicy, t: Task, f: Finish, at: Time, issued: set<Token>)
    requires t.state.Running? && !f.state.Running?
    ensures var u := FinishedTask(queue, t, f, at); Released(t, u) && TaskAdvances(t, u, issued)
  {
    hide Backoff;
  }

  lemma RefundedRow(t: Task, availableAt: Option<Time>, issued: set<Token>)
    requires t.state.Running?
    ensures var u := RefundedTask(t, availableAt);
            !u.state.Running? && NoLease(u) && u.attemptCount == t.attemptCount - 1 && TaskAdvances(t, u, issued)
  {
  }

  lemma SucceededRow(t: Task, at: Time, issued: set<Token>)
    requires t.state.Running?
    ensures var u := SucceededTask(t, at); Released(t, u) && TaskAdvances(t, u, issued)
  {
  }

  lemma FallbackRow(t: Task, at: Time, issued: set<Token>)
    requires t.state.Running?
    ensures var u := FallbackTask(t, at); Released(t, u) && TaskAdvances(t, u, issued)
  {
  }

  predicate SameLease(t: Task, t': Task) {
    t'.state.Running? && FullLease(t') && t'.attemptCount == t.attemptCount
    && t'.leaseToken == t.leaseToken && t'.leaseOwner == t.leaseOwner && t'.leaseStartedAt == t.leaseStartedAt
    && t'.releaseHash == t.releaseHash && t'.activationEpoch == t.activationEpoch
  }

  lemma KeptRows(t: Task, issued: set<Token>)
    requires t.state.Running? && FullLease(t)
    ensures SameLease(t, FallbackConsumed(t)) && TaskAdvances(t, FallbackConsumed(t), issued)
  {
  }

  lemma ClosedRow(a: Attempt, outcome: AttemptOutcome, code: Code, bytes: int, at: Time)
    ensures var a' := ClosedAttempt(a, outcome, code, bytes, at); a'.token == a.token && a'.finishedAt.Some?
  {
  }

  /** The attempt that carries a running task's token is that task's newest one. */
  lemma TokenFindsNewest(db: Db, id: TaskId)
    requires Fenced(db) && id in db.tasks && db.tasks[id].state.Running?
    ensures var t := db.tasks[id];
            t.leaseToken.Some? && AttemptKey(id, t.attemptCount) in db.attempts
            && AttemptOf(db, t.leaseToken.value) == Some(AttemptKey(id, t.attemptCount))
  {
    assert TaskSound(db, id);
    var t := db.tasks[id];
    var k := AttemptKey(id, t.attemptCount);
    assert HasToken(db, t.leaseToken.value, k);
    var found := AttemptOf(db, t.leaseToken.value).value;
    assert HasToken(db, t.leaseToken.value, found);
  }

  lemma AdmittedRuns(db: Db, worker: WorkerIdentity, lease: ScrapeLease, now: Time)
    requires Fenced(db) && Admitted(db, worker, lease, now)
    ensures lease.taskId in db.tasks && db.tasks[lease.taskId].state.Running?
    ensures AttemptKey(lease.taskId, db.tasks[lease.taskId].attemptCount) in db.attempts
    ensures AttemptOf(db, lease.token) == Some(AttemptKey(lease.taskId, db.tasks[lease.taskId].attemptCount))
  {
    TokenFindsNewest(db, lease.taskId);
  }

  lemma SameTask(t: Task, issued: set<Token>)
    ensures TaskAdvances(t, t, issued)
    ensures t.state.Running? && FullLease(t) ==> SameLease(t, t)
  {
  }

  lemma RowsExpired(db: Db, now: Time, limit: int, locked: set<TaskId>, rows: seq<TaskId>)
    requires ReapRows(db, now, limit, locked, rows)
    ensures forall id :: id in RowSet(rows) ==> Expired(db, now, id)
  {
  }

  predicate SameQueue(db: Db, db': Db) {
    db'.tasks == db.tasks && db'.attempts == db.attempts && db'.issued == db.issued && db'.log == db.log
  }
}
