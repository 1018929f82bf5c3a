/** Conservation of proxy bytes between ledgers and reservations. */
module ProxyLedger {
  import opened Options
  import opened Contracts
  import opened ScrapeQueue
  import opened SourceBudget
  import opened DenialPolicy
  import opened Coordinator
  import opened Fencing
  import opened Changes
  import opened Frames
  import opened Effects
  import opened Fence
  import opened LeaseLife

  // ----- outstanding reservations

  /** What an attempt still reserves in a billing cycle: that of its own start. */
  function Reserved(cfg: Config, cycle: int, a: Attempt): int {
    if a.networkStartedAt.Some? && cfg.cycleOf(a.networkStartedAt.value) == cycle then a.proxyReservedBytes else 0
  }

  ghost function Outstanding(cfg: Config, cycle: int, attempts: map<AttemptKey, Attempt>): int
    decreases |attempts|
  {
    if attempts == map[] then 0
    else
      var k :| k in attempts;
      Reserved(cfg, cycle, attempts[k]) + Outstanding(cfg, cycle, attempts - {k})
  }

  lemma {:induction false} OutstandingWithout(cfg: Config, cycle: int, attempts: map<AttemptKey, Attempt>, k: AttemptKey)
    requires k in attempts
    ensures Outstanding(cfg, cycle, attempts) == Reserved(cfg, cycle, attempts[k]) + Outstanding(cfg, cycle, attempts - {k})
    decreases |attempts|
  {
    hide Reserved;
    var first :| first in attempts && Outstanding(cfg, cycle, attempts)
                   == Reserved(cfg, cycle, attempts[first]) + Outstanding(cfg, cycle, attempts - {first});
    if first != k {
      OutstandingWithout(cfg, cycle, attempts - {first}, k);
      OutstandingWithout(cfg, cycle, attempts - {k}, first);
      assert attempts - {first} - {k} == attempts - {k} - {first};
    }
  }

  lemma OutstandingUpdated(cfg: Config, cycle: int, attempts: map<AttemptKey, Attempt>, k: AttemptKey, a: Attempt)
    ensures Outstanding(cfg, cycle, attempts[k := a])
            == Outstanding(cfg, cycle, attempts) + Reserved(cfg, cycle, a)
               - (if k in attempts then Reserved(cfg, cycle, attempts[k]) else 0)
  {
    hide Reserved, Outstanding;
    OutstandingWithout(cfg, cycle, attempts[k := a], k);
    if k in attempts {
      OutstandingWithout(cfg, cycle, attempts, k);
      assert attempts[k := a] - {k} == attempts - {k};
    } else {
      assert attempts[k := a] - {k} == attempts;
    }
  }

  lemma {:induction false} SameOutstanding(cfg: Config, cycle: int, before: map<AttemptKey, Attempt>, after: map<AttemptKey, Attempt>)
    requires before.Keys == after.Keys
    requires forall k :: k in before ==> Reserved(cfg, cycle, after[k]) == Reserved(cfg, cycle, before[k])
    ensures Outstanding(cfg, cycle, after) == Outstanding(cfg, cycle, before)
    decreases |before|
  {
    hide Reserved;
    if before == map[] {
      assert after == map[];
    } else {
      var k :| k in before;
      OutstandingWithout(cfg, cycle, before, k);
      OutstandingWithout(cfg, cycle, after, k);
      SameOutstanding(cfg, cycle, before - {k}, after - {k});
    }
  }

  lemma {:induction false} OutstandingNonNegative(cfg: Config, cycle: int, attempts: map<AttemptKey, Attempt>)
    requires forall k :: k in attempts ==> 0 <= Reserved(cfg, cycle, attempts[k])
    ensures 0 <= Outstanding(cfg, cycle, attempts)
    decreases |attempts|
  {
    hide Reserved;
    if attempts != map[] {
      var k :| k in attempts;
      OutstandingWithout(cfg, cycle, attempts, k);
      OutstandingNonNegative(cfg, cycle, attempts - {k});
    }
  }

  // ----- reservations, attempt by attempt

  /** Only a proxy start without an outcome reserves bytes, and never more than `cap`. */
  predicate AttemptReserves(a: Attempt, low: int, cap: int) {
    (if a.route.Proxy? && a.classification.None? then low <= a.proxyReservedBytes <= cap else a.proxyReservedBytes == 0)
    && (if a.route.Unassigned? then a.classification.None? else a.networkStartedAt.Some?)
  }

  /** Every open proxy reservation lies between `low` and `cap`. */
  ghost predicate Reserves(db: Db, low: int, cap: int) {
    forall k :: k in db.attempts ==> AttemptReserves(db.attempts[k], low, cap)
  }

  /** How the attempts table changes: one attempt replaced, one removed, or none with other reservations. */
  predicate KeepsReservation(a: Attempt, b: Attempt) {
    b.proxyReservedBytes == a.proxyReservedBytes && b.startedAt == a.startedAt && b.networkStartedAt == a.networkStartedAt
    && b.route == a.route && b.routeId == a.routeId && b.classification == a.classification
  }

  ghost predicate SameReservations(before: map<AttemptKey, Attempt>, after: map<AttemptKey, Attempt>) {
    before.Keys == after.Keys && forall k :: k in before ==> KeepsReservation(before[k], after[k])
  }

  predicate MovesBytes(c: Change) {
    c.LeaseTaken? || c.AttemptRefunded? || c.StartGranted? || c.OutcomeObserved?
  }

  lemma ClosingKeeps(cfg: Config, db: Db, c: Change)
    requires Permitted(cfg, db, c) && (c.AttemptClosed? || c.LeaseRenewed? || Completing(c) || c.HandedOff?)
    ensures SameReservations(db.attempts, Commit(cfg, db, c).attempts)
  {
    hide Permitted, Commit, EndCommit, FinishedTask, Settled;
    if c.AttemptClosed? || c.LeaseRenewed? {
      LeaseCommits(cfg, db, c);
    } else {
      EndCommits(cfg, db, c);
      EndAttempts(db, c);
    }
  }

  lemma BatchKeeps(cfg: Config, db: Db, c: Change)
    requires Permitted(cfg, db, c) && (c.HeldReleased? || c.Reaped? || c.TaskAdded? || c.ReplayAdded?)
    ensures SameReservations(db.attempts, Commit(cfg, db, c).attempts)
  {
    hide Permitted, Commit, ReapedTask, NewKey, BindingOf, Blank;
    QueueCommits(cfg, db, c);
  }

  lemma OthersKeepReservations(cfg: Config, db: Db, c: Change)
    requires Permitted(cfg, db, c) && !MovesBytes(c)
    ensures SameReservations(db.attempts, Commit(cfg, db, c).attempts)
  {
    hide Permitted, Commit;
    if Outside(c) {
      QueueKept(cfg, db, c);
    } else if c.HeldReleased? || c.Reaped? || c.TaskAdded? || c.ReplayAdded? {
      BatchKeeps(cfg, db, c);
    } else {
      ClosingKeeps(cfg, db, c);
    }
  }

  /** The attempt and ledger rows of a granted start. */
  lemma StartMoves(cfg: Config, db: Db, c: Change)
    requires Permitted(cfg, db, c) && c.StartGranted?
    ensures c.id in db.tasks && Newest(db, c.id) in db.attempts
    ensures var db' := Commit(cfg, db, c);
            var k := Newest(db, c.id);
            var cycle := cfg.cycleOf(c.now);
            k in db'.attempts && db'.attempts == db.attempts[k := db'.attempts[k]]
            && db.attempts[k].route.Unassigned?
            && var a := db'.attempts[k];
               a.networkStartedAt == Some(c.now) && a.classification == db.attempts[k].classification
               && a.proxyReservedBytes == (if a.route.Proxy? then c.requested else 0) && !a.route.Unassigned?
               && (forall other :: other != cycle ==> LedgerAt(db', other) == LedgerAt(db, other))
               && LedgerAt(db', cycle) == LedgerAt(db, cycle).(allocatedBytes := LedgerAt(db, cycle).allocatedBytes + a.proxyReservedBytes)
               && (a.route.Proxy? ==> LedgerAt(db', cycle).allocatedBytes <= PROXY_USABLE_BYTES)
  {
    hide QueuePermitted, QueueCommit, LeasePermitted, LeaseCommit, EndPermitted, EndCommit, RegistryPermitted, RegistryCommit,
         SourceStateAt, FirstRoute, ChargedSource, FallbackConsumed, OpenUnder, Current, MayStart;
  }

  lemma OutcomeMoves(cfg: Config, db: Db, c: Change)
    requires Permitted(cfg, db, c) && c.OutcomeObserved?
    ensures c.id in db.tasks && Newest(db, c.id) in db.attempts
    ensures var db' := Commit(cfg, db, c);
            var k := Newest(db, c.id);
            var cycle := cfg.cycleOf(c.now);
            k in db'.attempts && db'.attempts == db.attempts[k := db'.attempts[k]]
            && var a, a' := db.attempts[k], db'.attempts[k];
               a.route == c.permit.route && !a.route.Unassigned? && a.classification.None? && a'.classification.Some?
               && a'.route == a.route && a'.routeId == a.routeId && a'.startedAt == a.startedAt && a'.networkStartedAt == a.networkStartedAt
               && a'.proxyReservedBytes == (if a.route.Proxy? then 0 else a.proxyReservedBytes)
               && (forall other :: other != cycle || !a.route.Proxy? ==> LedgerAt(db', other) == LedgerAt(db, other))
               && (a.route.Proxy? ==> LedgerAt(db', cycle) == Reconciled(LedgerAt(db, cycle), a.proxyReservedBytes, c.bytes)
                                      && LedgerAt(db', cycle).allocatedBytes <= PROXY_USABLE_BYTES)
               && 0 <= c.bytes <= 2_000_000
  {
    hide QueuePermitted, QueueCommit, LeasePermitted, LeaseCommit, EndPermitted, EndCommit, RegistryPermitted, RegistryCommit,
         SourceStateAt, ObservedSource, Quarantined, FallbackTask, OpenUnder, Current, Uncharged, Decide;
  }

  lemma TakeMoves(cfg: Config, db: Db, c: Change)
    requires Fenced(db) && Permitted(cfg, db, c) && c.LeaseTaken?
    ensures c.id in db.tasks
    ensures var k := AttemptKey(c.id, db.tasks[c.id].attemptCount + 1);
            var db' := Commit(cfg, db, c);
            k !in db.attempts && k in db'.attempts && db'.attempts == db.attempts[k := db'.attempts[k]]
            && db'.attempts[k].route.Unassigned? && db'.attempts[k].proxyReservedBytes == 0 && db'.attempts[k].networkStartedAt.None?
  {
    hide TaskSound, Current;
    assert AttemptKey(c.id, db.tasks[c.id].attemptCount + 1) in db.attempts ==>
        AttemptSound(db, AttemptKey(c.id, db.tasks[c.id].attemptCount + 1));
  }

  lemma RefundMoves(cfg: Config, db: Db, c: Change)
    requires Permitted(cfg, db, c) && c.AttemptRefunded?
    ensures c.id in db.tasks && Newest(db, c.id) in db.attempts
    ensures Commit(cfg, db, c).attempts == db.attempts - {Newest(db, c.id)}
  {
    hide Permitted, Commit, RefundedTask;
    LeaseCommits(cfg, db, c);
  }

  // ----- the allowance, for every call order

  ghost predicate WithinAllowance(db: Db) {
    forall cycle :: LedgerAt(db, cycle).allocatedBytes <= PROXY_USABLE_BYTES
  }

  lemma LedgersKept(cfg: Config, db: Db, c: Change)
    requires Permitted(cfg, db, c) && !c.StartGranted? && !c.OutcomeObserved?
    ensures Commit(cfg, db, c).ledgers == db.ledgers
  {
    hide Permitted, Commit;
    if c.SourceTouched? {
      TouchedLedgers(cfg, db, c);
    } else {
      BudgetKept(cfg, db, c);
    }
  }

  lemma TouchedLedgers(cfg: Config, db: Db, c: Change)
    requires Permitted(cfg, db, c) && c.SourceTouched?
    ensures Commit(cfg, db, c).ledgers == db.ledgers
  {
    hide SourceStateAt;
  }

  lemma ChangeWithin(cfg: Config, db: Db, c: Change)
    requires Permitted(cfg, db, c) && WithinAllowance(db)
    ensures WithinAllowance(Commit(cfg, db, c))
  {
    hide Permitted, Commit;
    var db' := Commit(cfg, db, c);
    if c.StartGranted? {
      StartMoves(cfg, db, c);
      forall cycle ensures LedgerAt(db', cycle).allocatedBytes <= PROXY_USABLE_BYTES {
      }
    } else if c.OutcomeObserved? {
      OutcomeMoves(cfg, db, c);
      forall cycle ensures LedgerAt(db', cycle).allocatedBytes <= PROXY_USABLE_BYTES {
      }
    } else {
      LedgersKept(cfg, db, c);
      forall cycle ensures LedgerAt(db', cycle) == LedgerAt(db, cycle) {
      }
    }
  }

  // ----- reservations stay between their bounds

  /** A reservation request of the step lies between `low` and `cap`. */
  predicate Requests(step: Step, low: int, cap: int) {
    step.ReserveStep? && 0 <= step.requested <= 2_000_000 ==> low <= step.requested <= cap
  }

  lemma ChangeReserves(cfg: Config, db: Db, step: Step, c: Change, low: int, cap: int)
    requires Fenced(db) && Permitted(cfg, db, c) && Reserves(db, low, cap) && Traces(step, c) && Requests(step, low, cap)
    ensures Reserves(Commit(cfg, db, c), low, cap)
  {
    hide Fenced, Permitted, Commit, Traces;
    var db' := Commit(cfg, db, c);
    if c.StartGranted? {
      StartRequest(cfg, db, step, c, low, cap);
      StartMoves(cfg, db, c);
    } else if c.OutcomeObserved? {
      OutcomeMoves(cfg, db, c);
    } else if c.LeaseTaken? {
      TakeMoves(cfg, db, c);
      TakenFresh(cfg, db, c);
    } else if c.AttemptRefunded? {
      RefundMoves(cfg, db, c);
    } else {
      OthersKeepReservations(cfg, db, c);
    }
  }

  lemma StartRequest(cfg: Config, db: Db, step: Step, c: Change, low: int, cap: int)
    requires Permitted(cfg, db, c) && c.StartGranted? && Traces(step, c) && Requests(step, low, cap)
    ensures low <= c.requested <= cap && 0 <= c.requested <= 2_000_000
  {
    hide Current, OpenUnder, MayStart;
  }

  lemma TakenFresh(cfg: Config, db: Db, c: Change)
    requires Fenced(db) && Permitted(cfg, db, c) && c.LeaseTaken?
    ensures c.id in db.tasks
    ensures var k := AttemptKey(c.id, db.tasks[c.id].attemptCount + 1);
            k in Commit(cfg, db, c).attempts && Commit(cfg, db, c).attempts[k].classification.None?
  {
    hide Fenced;
  }

  // ----- conservation, cycle by cycle

  predicate ConservedIn(cfg: Config, db: Db, cycle: int, outstanding: int) {
    LedgerAt(db, cycle).allocatedBytes == LedgerAt(db, cycle).transferredBytes + outstanding
  }

  /** In every billing cycle, allocated = transferred + what that cycle's open attempts still reserve. */
  ghost predicate Conserved(cfg: Config, db: Db) {
    forall cycle :: ConservedIn(cfg, db, cycle, Outstanding(cfg, cycle, db.attempts))
  }

  /** The change stays inside one cycle's books: a proxy outcome is reconciled in the cycle of its start,
      and a refunded attempt holds no reservation. */
  predicate Balanced(cfg: Config, db: Db, c: Change) {
    (c.OutcomeObserved? || c.AttemptRefunded? ==> c.id in db.tasks && Newest(db, c.id) in db.attempts)
    && (c.AttemptRefunded? ==> db.attempts[Newest(db, c.id)].proxyReservedBytes == 0)
    && (c.OutcomeObserved? && c.permit.route.Proxy? ==>
          var a := db.attempts[Newest(db, c.id)];
          a.proxyReservedBytes == 0 || (a.networkStartedAt.Some? && cfg.cycleOf(a.networkStartedAt.value) == cfg.cycleOf(c.now)))
  }

  lemma StartConserves(cfg: Config, db: Db, c: Change, low: int, cap: int, cycle: int)
    requires Permitted(cfg, db, c) && c.StartGranted? && Reserves(db, low, cap) && Conserved(cfg, db)
    ensures ConservedIn(cfg, Commit(cfg, db, c), cycle, Outstanding(cfg, cycle, Commit(cfg, db, c).attempts))
  {
    hide Permitted, Commit, Outstanding, LedgerAt;
    StartMoves(cfg, db, c);
    var k := Newest(db, c.id);
    assert AttemptReserves(db.attempts[k], low, cap);
    OutstandingUpdated(cfg, cycle, db.attempts, k, Commit(cfg, db, c).attempts[k]);
    assert ConservedIn(cfg, db, cycle, Outstanding(cfg, cycle, db.attempts));
  }

  /** Conservation in one cycle after an outcome. */
  lemma OutcomeConserves(cfg: Config, db: Db, c: Change, low: int, cap: int, cycle: int)
    requires Permitted(cfg, db, c) && c.OutcomeObserved? && Reserves(db, low, cap) && Conserved(cfg, db)
    requires c.id in db.tasks && Newest(db, c.id) in db.attempts
    ensures var a := db.attempts[Newest(db, c.id)];
            var started := if a.networkStartedAt.Some? then cfg.cycleOf(a.networkStartedAt.value) else 0;
            ConservedIn(cfg, Commit(cfg, db, c), cycle, Outstanding(cfg, cycle, Commit(cfg, db, c).attempts))
            <==> (!a.route.Proxy? || a.proxyReservedBytes == 0 || ((cycle == started) == (cycle == cfg.cycleOf(c.now))))
  {
    hide Permitted, Commit, Outstanding, LedgerAt;
    OutcomeMoves(cfg, db, c);
    var k := Newest(db, c.id);
    assert AttemptReserves(db.attempts[k], low, cap);
    OutstandingUpdated(cfg, cycle, db.attempts, k, Commit(cfg, db, c).attempts[k]);
    assert ConservedIn(cfg, db, cycle, Outstanding(cfg, cycle, db.attempts));
  }

  lemma RefundConserves(cfg: Config, db: Db, c: Change, low: int, cap: int, cycle: int)
    requires Permitted(cfg, db, c) && c.AttemptRefunded? && Reserves(db, low, cap) && Conserved(cfg, db)
    requires c.id in db.tasks && Newest(db, c.id) in db.attempts
    ensures var a := db.attempts[Newest(db, c.id)];
            ConservedIn(cfg, Commit(cfg, db, c), cycle, Outstanding(cfg, cycle, Commit(cfg, db, c).attempts))
            <==> Reserved(cfg, cycle, a) == 0
  {
    hide Permitted, Commit, Outstanding, Reserved;
    RefundMoves(cfg, db, c);
    LedgersKept(cfg, db, c);
    OutstandingWithout(cfg, cycle, db.attempts, Newest(db, c.id));
    assert ConservedIn(cfg, db, cycle, Outstanding(cfg, cycle, db.attempts));
  }

  lemma OtherConserves(cfg: Config, db: Db, c: Change, cycle: int)
    requires Fenced(db) && Permitted(cfg, db, c) && !c.StartGranted? && !c.OutcomeObserved? && !c.AttemptRefunded? && Conserved(cfg, db)
    ensures ConservedIn(cfg, Commit(cfg, db, c), cycle, Outstanding(cfg, cycle, Commit(cfg, db, c).attempts))
  {
    hide Fenced, Permitted, Commit, Outstanding;
    LedgersKept(cfg, db, c);
    assert ConservedIn(cfg, db, cycle, Outstanding(cfg, cycle, db.attempts));
    if c.LeaseTaken? {
      TakeMoves(cfg, db, c);
      var k := AttemptKey(c.id, db.tasks[c.id].attemptCount + 1);
      OutstandingUpdated(cfg, cycle, db.attempts, k, Commit(cfg, db, c).attempts[k]);
    } else {
      OthersKeepReservations(cfg, db, c);
      SameOutstanding(cfg, cycle, db.attempts, Commit(cfg, db, c).attempts);
    }
  }

  /** A permitted change keeps every cycle's books balanced exactly when it is `Balanced`. */
  lemma ConservesExactly(cfg: Config, db: Db, c: Change, low: int, cap: int)
    requires Fenced(db) && Permitted(cfg, db, c) && Reserves(db, low, cap) && Conserved(cfg, db)
    ensures Conserved(cfg, Commit(cfg, db, c)) <==> Balanced(cfg, db, c)
  {
    hide Fenced, Permitted, Commit, Outstanding, ConservedIn, Reserves;
    if c.OutcomeObserved? {
      OutcomeBalance(cfg, db, c, low, cap);
    } else if c.AttemptRefunded? {
      RefundBalance(cfg, db, c, low, cap);
    } else if c.StartGranted? {
      forall cycle ensures ConservedIn(cfg, Commit(cfg, db, c), cycle, Outstanding(cfg, cycle, Commit(cfg, db, c).attempts)) {
        StartConserves(cfg, db, c, low, cap, cycle);
      }
    } else {
      forall cycle ensures ConservedIn(cfg, Commit(cfg, db, c), cycle, Outstanding(cfg, cycle, Commit(cfg, db, c).attempts)) {
        OtherConserves(cfg, db, c, cycle);
      }
    }
  }

  lemma OutcomeBalance(cfg: Config, db: Db, c: Change, low: int, cap: int)
    requires Permitted(cfg, db, c) && c.OutcomeObserved? && Reserves(db, low, cap) && Conserved(cfg, db)
    ensures Conserved(cfg, Commit(cfg, db, c)) <==> Balanced(cfg, db, c)
  {
    hide Permitted, Commit, Outstanding, ConservedIn;
    OutcomeMoves(cfg, db, c);
    var a := db.attempts[Newest(db, c.id)];
    assert AttemptReserves(a, low, cap);
    var started := cfg.cycleOf(a.networkStartedAt.value);
    OutcomeConserves(cfg, db, c, low, cap, started);
    forall cycle | Balanced(cfg, db, c)
      ensures ConservedIn(cfg, Commit(cfg, db, c), cycle, Outstanding(cfg, cycle, Commit(cfg, db, c).attempts))
    {
      OutcomeConserves(cfg, db, c, low, cap, cycle);
    }
  }

  lemma RefundBalance(cfg: Config, db: Db, c: Change, low: int, cap: int)
    requires Permitted(cfg, db, c) && c.AttemptRefunded? && Reserves(db, low, cap) && Conserved(cfg, db)
    ensures Conserved(cfg, Commit(cfg, db, c)) <==> Balanced(cfg, db, c)
  {
    hide Permitted, Commit, Outstanding, ConservedIn;
    RefundMoves(cfg, db, c);
    var a := db.attempts[Newest(db, c.id)];
    assert AttemptReserves(a, low, cap);
    if a.networkStartedAt.Some? {
      RefundConserves(cfg, db, c, low, cap, cfg.cycleOf(a.networkStartedAt.value));
    }
    forall cycle | Balanced(cfg, db, c)
      ensures ConservedIn(cfg, Commit(cfg, db, c), cycle, Outstanding(cfg, cycle, Commit(cfg, db, c).attempts))
    {
      RefundConserves(cfg, db, c, low, cap, cycle);
    }
  }

  // ----- whole runs

  lemma {:induction false} RunWithin(cfg: Config, steps: seq<Step>, low: int, cap: int)
    requires forall i :: 0 <= i < |steps| ==> Requests(steps[i], low, cap)
    ensures var db := Run(cfg, EMPTY, steps); Fenced(db) && WithinAllowance(db) && Reserves(db, low, cap)
    decreases |steps|
  {
    hide Fenced, WithinAllowance, Reserves, Apply, Permitted, Commit, Requests;
    if steps == [] {
      EmptyFenced();
      EmptyLedger(cfg, low, cap);
    } else {
      var n := |steps| - 1;
      forall i | 0 <= i < n ensures Requests(steps[..n][i], low, cap) {
        assert steps[..n][i] == steps[i];
      }
      RunWithin(cfg, steps[..n], low, cap);
      var db := Run(cfg, EMPTY, steps[..n]);
      var c := StepCommits(cfg, db, steps[n]);
      ChangeFenced(cfg, db, c);
      ChangeWithin(cfg, db, c);
      ChangeReserves(cfg, db, steps[n], c, low, cap);
    }
  }

  lemma EmptyLedger(cfg: Config, low: int, cap: int)
    ensures WithinAllowance(EMPTY) && Reserves(EMPTY, low, cap) && Conserved(cfg, EMPTY)
  {
  }

  /** No call order of any steps allocates more than the usable allowance in a billing cycle. */
  lemma AllocationWithinAllowance(cfg: Config, steps: seq<Step>, cycle: int)
    ensures LedgerAt(Run(cfg, EMPTY, steps), cycle).allocatedBytes <= 900_000_000
  {
    hide Fenced, LedgerAt;
    RunWithin(cfg, steps, 0, 2_000_000);
  }

  /** The worker's protocol on one step presented under a running lease: it gives an attempt back as out of
      budget only if no start was ever granted under it, and reports a proxy outcome within the billing cycle of
      the start. */
  predicate InProtocol(cfg: Config, db: Db, step: Step) {
    LeaseStep(step) && RunsUnder(db, step.lease.taskId, step.lease.token) && Newest(db, step.lease.taskId) in db.attempts ==>
      var a := db.attempts[Newest(db, step.lease.taskId)];
      (step.DeferStep? && step.code.BudgetExhausted? ==> a.route.Unassigned?)
      && (step.OutcomeStep? && step.permit.route.Proxy? && a.networkStartedAt.Some? ==>
            cfg.cycleOf(a.networkStartedAt.value) == cfg.cycleOf(step.now))
  }

  ghost predicate ProtocolRun(cfg: Config, steps: seq<Step>) {
    forall i :: 0 <= i < |steps| ==> InProtocol(cfg, Run(cfg, EMPTY, steps[..i]), steps[i])
  }

  lemma ProtocolBalances(cfg: Config, db: Db, step: Step, c: Change, low: int, cap: int)
    requires Permitted(cfg, db, c) && Traces(step, c) && InProtocol(cfg, db, step) && Reserves(db, low, cap)
    requires LeaseStep(step) ==> RunsUnder(db, step.lease.taskId, step.lease.token)
    ensures Balanced(cfg, db, c)
  {
    hide Permitted, Commit;
    if c.OutcomeObserved? {
      OutcomeMoves(cfg, db, c);
      assert AttemptReserves(db.attempts[Newest(db, c.id)], low, cap);
    } else if c.AttemptRefunded? {
      RefundMoves(cfg, db, c);
      assert AttemptReserves(db.attempts[Newest(db, c.id)], low, cap);
    }
  }

  lemma {:induction false} RunConserves(cfg: Config, steps: seq<Step>)
    requires ProtocolRun(cfg, steps)
    ensures Conserved(cfg, Run(cfg, EMPTY, steps))
    decreases |steps|
  {
    hide Fenced, WithinAllowance, Conserved, Reserves, Apply, Permitted, Commit, InProtocol, Balanced, Traces;
    if steps == [] {
      EmptyLedger(cfg, 0, 0);
    } else {
      var n := |steps| - 1;
      forall i | 0 <= i < n ensures InProtocol(cfg, Run(cfg, EMPTY, steps[..n][..i]), steps[..n][i]) {
        assert steps[..n][..i] == steps[..i];
      }
      RunConserves(cfg, steps[..n]);
      var db := Run(cfg, EMPTY, steps[..n]);
      RunWithin(cfg, steps[..n], 0, 2_000_000);
      var c := StepCommits(cfg, db, steps[n]);
      if LeaseStep(steps[n]) && !RunsUnder(db, steps[n].lease.taskId, steps[n].lease.token) {
        DeadLeaseChangesNothing(cfg, db, steps[n]);
      } else {
        ProtocolBalances(cfg, db, steps[n], c, 0, 2_000_000);
        ConservesExactly(cfg, db, c, 0, 2_000_000);
      }
    }
  }

  /** Under the worker's protocol, in every billing cycle: allocated = transferred + outstanding reservations,
      so transferred <= allocated <= 900,000,000. */
  lemma ProxyBytesConserved(cfg: Config, steps: seq<Step>, cycle: int)
    requires ProtocolRun(cfg, steps)
    ensures var db := Run(cfg, EMPTY, steps);
            LedgerAt(db, cycle).allocatedBytes == LedgerAt(db, cycle).transferredBytes + Outstanding(cfg, cycle, db.attempts)
            && LedgerAt(db, cycle).transferredBytes <= LedgerAt(db, cycle).allocatedBytes <= 900_000_000
  {
    hide Fenced, LedgerAt, Outstanding;
    var db := Run(cfg, EMPTY, steps);
    RunConserves(cfg, steps);
    RunWithin(cfg, steps, 0, 2_000_000);
    assert ConservedIn(cfg, db, cycle, Outstanding(cfg, cycle, db.attempts));
    forall k | k in db.attempts ensures 0 <= Reserved(cfg, cycle, db.attempts[k]) {
      assert AttemptReserves(db.attempts[k], 0, 2_000_000);
    }
    OutstandingNonNegative(cfg, cycle, db.attempts);
  }

  /** While every reservation asks for 2,000,000 bytes, as the worker's client does, no reconciliation is ever
      rejected, whatever cycle the outcome falls in. */
  lemma ReconciliationNeverRejects(cfg: Config, steps: seq<Step>, id: TaskId, permit: NetworkPermit, bytes: int, now: Time)
    requires forall i :: 0 <= i < |steps| && steps[i].ReserveStep? ==> steps[i].requested == 2_000_000
    requires id in Run(cfg, EMPTY, steps).tasks && Newest(Run(cfg, EMPTY, steps), id) in Run(cfg, EMPTY, steps).attempts
    requires var a := Run(cfg, EMPTY, steps).attempts[Newest(Run(cfg, EMPTY, steps), id)];
             a.route == permit.route && a.classification.None?
    requires 0 <= bytes <= 2_000_000
    ensures var db := Run(cfg, EMPTY, steps); !Overruns(cfg, db, Newest(db, id), permit, bytes, now)
  {
    hide Fenced, LedgerAt;
    RunWithin(cfg, steps, 2_000_000, 2_000_000);
    var db := Run(cfg, EMPTY, steps);
    assert AttemptReserves(db.attempts[Newest(db, id)], 2_000_000, 2_000_000);
  }
}
