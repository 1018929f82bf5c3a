/** Cross-source redirects end the lease that met them. */
module Redirects {
  import opened Options
  import opened Contracts
  import ScrapeQueue

  ghost predicate HandoffAttempt(db: Db, worker: WorkerIdentity, lease: ScrapeLease, k: AttemptKey) {
    k in db.attempts && k.task == lease.taskId
    && db.attempts[k].token == lease.token && db.attempts[k].workerId == worker.workerId
  }

  /** The handoff's own lease check: no worker registry, no release pointer. */
  predicate HandoffLeased(db: Db, worker: WorkerIdentity, lease: ScrapeLease, now: Time) {
    lease.taskId in db.tasks
    && var t := db.tasks[lease.taskId];
       t.source == worker.source && t.state.Running?
       && t.leaseOwner == Some(worker.workerId) && t.leaseToken == Some(lease.token)
       && t.leaseExpiresAt.Some? && t.leaseExpiresAt.value > now
  }

  /** `handoff`; `listing` is the target's listing id, None where its URL is not a listing. */
  ghost function Handoff(db: Db, worker: WorkerIdentity, lease: ScrapeLease, target: Portal, listing: Option<string>,
                         id: int, now: Time): (Db, Reply<int>) {
    if target == worker.source || listing.None? then (db, Invalid)
    else
      var key := HandoffKey(lease.taskId, target, listing.value);
      if key in db.handoffs then (db, Ok(db.handoffs[key]))
      else if !HandoffLeased(db, worker, lease, now) || !exists k :: HandoffAttempt(db, worker, lease, k) then (db, LostLease)
      else
        var k :| HandoffAttempt(db, worker, lease, k);
        (EndLease(db, lease.taskId, key, id, k, now), Ok(id))
  }

  function EndLease(db: Db, task: TaskId, key: HandoffKey, id: int, k: AttemptKey, at: Time): Db
    requires task in db.tasks && k in db.attempts
  {
    var a := db.attempts[k];
    db.(handoffs := db.handoffs[key := id],
        tasks := db.tasks[task := ScrapeQueue.SucceededTask(db.tasks[task], at)],
        attempts := db.attempts[k := ScrapeQueue.ClosedAttempt(a, AttemptSucceeded, Redirected, a.responseBytes, at)])
  }
}
