/** Daily limits under a clock that does not run backwards, and permits that are still unresolved. */
module DailyCaps {
  import opened Sets
  import opened Options
  import opened Contracts
  import opened ScrapeQueue
  import opened SourceBudget
  import opened DenialPolicy
  import opened Coordinator
  import opened Fencing
  import opened Changes
  import opened Frames
  import opened Effects
  import opened Fence
  import opened LeaseLife
  import opened Pacing

  // ----- the clock of one source's budget

  function BudgetClock(step: Step, source: Portal): Option<Time> {
    if (step.ReserveStep? || step.OutcomeStep?) && step.worker.source == source then Some(step.now)
    else if step.SnapshotStep? && step.source == source then Some(step.now)
    else None
  }

  predicate ReadsBy(step: Step, source: Portal, horizon: Time) {
    BudgetClock(step, source).Some? ==> BudgetClock(step, source).value <= horizon
  }

  /** The budget transactions of the source read a clock that never goes back. */
  predicate Monotone(steps: seq<Step>, source: Portal) {
    forall i, j :: 0 <= i < j < |steps| && BudgetClock(steps[i], source).Some? && BudgetClock(steps[j], source).Some? ==>
      BudgetClock(steps[i], source).value <= BudgetClock(steps[j], source).value
  }

  predicate AllBy(steps: seq<Step>, source: Portal, horizon: Time) {
    forall i :: 0 <= i < |steps| ==> ReadsBy(steps[i], source, horizon)
  }

  /** The reading that bounds everything before the last step. */
  function Before(steps: seq<Step>, source: Portal, horizon: Time): Time
    requires steps != []
  {
    var last := BudgetClock(steps[|steps| - 1], source);
    if last.Some? then last.value else horizon
  }

  lemma PrefixBy(steps: seq<Step>, source: Portal, horizon: Time)
    requires steps != [] && Monotone(steps, source) && AllBy(steps, source, horizon)
    ensures var n := |steps| - 1;
            Monotone(steps[..n], source) && AllBy(steps[..n], source, Before(steps, source, horizon))
            && Before(steps, source, horizon) <= horizon
  {
    var n := |steps| - 1;
    hide BudgetClock;
    forall i | 0 <= i < n ensures ReadsBy(steps[..n][i], source, Before(steps, source, horizon)) {
      assert ReadsBy(steps[i], source, horizon);
      assert ReadsBy(steps[n], source, horizon);
    }
    assert ReadsBy(steps[n], source, horizon);
  }

  lemma DayOrder(a: Time, b: Time)
    requires a <= b
    ensures Day(a) <= Day(b)
  {
  }

  // ----- starts per day

  function OnDay(times: seq<Time>, day: int): nat {
    if times == [] then 0 else OnDay(times[..|times| - 1], day) + if Day(times[|times| - 1]) == day then 1 else 0
  }

  lemma OnDayAppend(times: seq<Time>, t: Time, day: int)
    ensures OnDay(times + [t], day) == OnDay(times, day) + if Day(t) == day then 1 else 0
  {
    assert (times + [t])[..|times|] == times;
  }

  lemma {:induction false} NoneAfter(times: seq<Time>, horizon: Time, day: int)
    requires (forall i :: 0 <= i < |times| ==> times[i] <= horizon) && Day(horizon) < day
    ensures OnDay(times, day) == 0
    decreases |times|
  {
    if times != [] {
      NoneAfter(times[..|times| - 1], horizon, day);
      DayOrder(times[|times| - 1], horizon);
    }
  }

  /** The counters are those of the last day touched, and no day ever exceeds the limit. */
  ghost predicate Capped(policy: SourceBudgetPolicy, db: Db, source: Portal, horizon: Time) {
    var times := StartTimes(db.log, source);
    (forall i :: 0 <= i < |times| ==> times[i] <= horizon)
    && (forall day :: OnDay(times, day) <= policy.dailyAttemptLimit)
    && (if source in db.sources then CountsDay(db.sources[source], times, horizon) else times == [])
  }

  ghost predicate CountsDay(s: SourceState, times: seq<Time>, horizon: Time) {
    s.dayKey <= Day(horizon) && s.attemptCount == OnDay(times, s.dayKey) && 0 <= s.successCount <= s.attemptCount
    && forall day :: day > s.dayKey ==> OnDay(times, day) == 0
  }

  lemma RolledCounts(db: Db, source: Portal, horizon: Time, now: Time)
    requires source in db.sources ==> CountsDay(db.sources[source], StartTimes(db.log, source), horizon)
    requires source !in db.sources ==> StartTimes(db.log, source) == []
    requires horizon <= now
    ensures CountsDay(SourceStateAt(db, source, now), StartTimes(db.log, source), now)
    ensures SourceStateAt(db, source, now).dayKey == Day(now)
  {
    hide StartTimes;
    DayOrder(horizon, now);
  }

  lemma ChargedCounts(s: SourceState, policy: SourceBudgetPolicy, times: seq<Time>, now: Time)
    requires CountsDay(s, times, now) && s.dayKey == Day(now)
    ensures CountsDay(ChargedSource(s, policy, now), times + [now], now)
  {
    forall day ensures OnDay(times + [now], day) == OnDay(times, day) + if Day(now) == day then 1 else 0 {
      OnDayAppend(times, now, day);
    }
  }

  lemma StartCapped(cfg: Config, db: Db, c: Change, horizon: Time)
    requires Permitted(cfg, db, c) && c.StartGranted? && c.source in cfg.budgets
    requires Capped(cfg.budgets[c.source], db, c.source, horizon) && horizon <= c.now
    ensures var times := StartTimes(db.log, c.source) + [c.now];
            (forall day :: OnDay(times, day) <= cfg.budgets[c.source].dailyAttemptLimit)
            && CountsDay(NextSource(cfg, db, c), times, c.now)
  {
    hide StartTimes, Permitted, OnDay, CountsDay;
    var times := StartTimes(db.log, c.source);
    StartGuard(cfg, db, c);
    RolledCounts(db, c.source, horizon, c.now);
    var s := SourceStateAt(db, c.source, c.now);
    DayCount(s, times, c.now);
    ChargedCounts(s, cfg.budgets[c.source], times, c.now);
    forall day ensures OnDay(times + [c.now], day) <= cfg.budgets[c.source].dailyAttemptLimit {
      OnDayAppend(times, c.now, day);
    }
  }

  lemma DayCount(s: SourceState, times: seq<Time>, now: Time)
    requires CountsDay(s, times, now)
    ensures s.attemptCount == OnDay(times, s.dayKey)
  {
  }

  lemma OtherCapped(cfg: Config, db: Db, c: Change, horizon: Time)
    requires Permitted(cfg, db, c) && Budgeting(c) && !c.StartGranted? && c.source in cfg.budgets
    requires Capped(cfg.budgets[c.source], db, c.source, horizon) && horizon <= c.now
    ensures CountsDay(NextSource(cfg, db, c), StartTimes(db.log, c.source), c.now)
  {
    hide StartTimes, OnDay, SourceStateAt, OpenUnder, Current, Overruns, Decide;
    RolledCounts(db, c.source, horizon, c.now);
  }

  lemma LaterCapped(policy: SourceBudgetPolicy, db: Db, source: Portal, horizon: Time, later: Time)
    requires Capped(policy, db, source, horizon) && horizon <= later
    ensures Capped(policy, db, source, later)
  {
    hide StartTimes, OnDay;
    DayOrder(horizon, later);
  }

  lemma ChangeCapped(cfg: Config, db: Db, c: Change, source: Portal, horizon: Time)
    requires Permitted(cfg, db, c) && source in cfg.budgets && Capped(cfg.budgets[source], db, source, horizon)
    requires TouchesSource(c, source) ==> horizon <= c.now
    ensures Capped(cfg.budgets[source], Commit(cfg, db, c), source, if TouchesSource(c, source) then c.now else horizon)
  {
    hide Permitted, Commit, StartTimes, OnDay, NextSource, CountsDay;
    SourcesAfter(cfg, db, c);
    StartsAfter(cfg, db, c, source);
    assert StartTimes(db.log, source) + [] == StartTimes(db.log, source);
    if TouchesSource(c, source) {
      if c.StartGranted? {
        StartCapped(cfg, db, c, horizon);
      } else {
        OtherCapped(cfg, db, c, horizon);
      }
    }
  }

  lemma {:induction false} RunCapped(cfg: Config, steps: seq<Step>, source: Portal, horizon: Time)
    requires source in cfg.budgets && Monotone(steps, source) && AllBy(steps, source, horizon)
    ensures Fenced(Run(cfg, EMPTY, steps)) && Capped(cfg.budgets[source], Run(cfg, EMPTY, steps), source, horizon)
    decreases |steps|
  {
    hide Fenced, Capped, Apply, Permitted, Commit, Monotone, AllBy, Traces;
    if steps == [] {
      EmptyFenced();
      EmptyCapped(cfg, source, horizon);
    } else {
      var n := |steps| - 1;
      PrefixBy(steps, source, horizon);
      var before := Before(steps, source, horizon);
      RunCapped(cfg, steps[..n], source, before);
      var db := Run(cfg, EMPTY, steps[..n]);
      var c := StepCommits(cfg, db, steps[n]);
      TouchTime(steps[n], c, source);
      ChangeFenced(cfg, db, c);
      ChangeCapped(cfg, db, c, source, before);
      LaterCapped(cfg.budgets[source], Commit(cfg, db, c), source, if TouchesSource(c, source) then c.now else before, horizon);
    }
  }

  lemma TouchTime(step: Step, c: Change, source: Portal)
    requires Traces(step, c)
    ensures TouchesSource(c, source) ==> BudgetClock(step, source) == Some(c.now)
  {
  }

  lemma EmptyCapped(cfg: Config, source: Portal, horizon: Time)
    requires source in cfg.budgets
    ensures Capped(cfg.budgets[source], EMPTY, source, horizon)
  {
  }

  /** While the source's clock does not go back, no UTC day has more granted starts than the attempt limit,
      and the successes counted today never exceed the attempts counted today. */
  lemma DailyAttemptsCapped(cfg: Config, steps: seq<Step>, source: Portal, day: int)
    requires source in cfg.budgets && Monotone(steps, source)
    ensures var db := Run(cfg, EMPTY, steps);
            OnDay(StartTimes(db.log, source), day) <= cfg.budgets[source].dailyAttemptLimit
            && (source in db.sources ==> 0 <= db.sources[source].successCount <= db.sources[source].attemptCount
                                         <= cfg.budgets[source].dailyAttemptLimit)
  {
    hide Fenced, StartTimes, OnDay, Monotone;
    var horizon := Latest(steps, source);
    RunCapped(cfg, steps, source, horizon);
  }

  /** Some time no reading exceeds. */
  lemma {:induction false} Latest(steps: seq<Step>, source: Portal) returns (horizon: Time)
    ensures AllBy(steps, source, horizon)
    decreases |steps|
  {
    hide BudgetClock;
    horizon := 0;
    if steps != [] {
      var n := |steps| - 1;
      var rest := Latest(steps[..n], source);
      var last := BudgetClock(steps[n], source);
      horizon := if last.Some? && last.value > rest then last.value else rest;
      forall i | 0 <= i < |steps| ensures ReadsBy(steps[i], source, horizon) {
        if i < n {
          assert ReadsBy(steps[..n][i], source, rest);
        }
      }
    }
  }

  // ----- permits without an outcome yet

  /** A running task of the source holds a permit whose outcome has not been recorded. */
  predicate Unresolved(db: Db, source: Portal, id: TaskId) {
    id in db.tasks && db.tasks[id].source == source && db.tasks[id].state.Running?
    && Newest(db, id) in db.attempts
    && !db.attempts[Newest(db, id)].route.Unassigned? && db.attempts[Newest(db, id)].classification.None?
  }

  function UnresolvedSet(db: Db, source: Portal): set<TaskId> {
    set id | id in db.tasks && Unresolved(db, source, id)
  }

  /** A change adds a permit only by granting it, and an outcome resolves the one it names. */
  predicate PermitsFollow(c: Change, before: bool, after: bool, source: Portal, id: TaskId) {
    (after ==> before || (c.StartGranted? && c.id == id && c.source == source))
    && (c.OutcomeObserved? && c.id == id && c.source == source ==> before && !after)
  }

  lemma LeasePermits(cfg: Config, db: Db, c: Change, source: Portal, id: TaskId)
    requires Permitted(cfg, db, c) && (c.LeaseTaken? || c.LeaseRenewed?)
    ensures PermitsFollow(c, Unresolved(db, source, id), Unresolved(Commit(cfg, db, c), source, id), source, id)
  {
    hide Permitted, Commit;
    LeaseCommits(cfg, db, c);
  }

  lemma FinishPermits(cfg: Config, db: Db, c: Change, source: Portal, id: TaskId)
    requires Permitted(cfg, db, c) && (c.AttemptRefunded? || c.AttemptClosed?)
    ensures PermitsFollow(c, Unresolved(db, source, id), Unresolved(Commit(cfg, db, c), source, id), source, id)
  {
    hide Permitted, Commit, Settled, FinishedTask, RefundedTask, ClosedAttempt, TaskAdvances;
    LeaseCommits(cfg, db, c);
    ClosedState(cfg, db, c);
    if c.AttemptClosed? {
      FinishedRow(cfg.queue, db.tasks[c.id], c.finish, c.at, {});
    } else {
      RefundedRow(db.tasks[c.id], c.finish.availableAt, {});
    }
  }

  lemma ClosedState(cfg: Config, db: Db, c: Change)
    requires Permitted(cfg, db, c) && (c.AttemptRefunded? || c.AttemptClosed?)
    ensures Runs(db, c.id) && (c.AttemptClosed? ==> !c.finish.state.Running?)
  {
    hide Current, OpenUnder;
  }

  lemma EndPermits(cfg: Config, db: Db, c: Change, source: Portal, id: TaskId)
    requires Permitted(cfg, db, c) && (Completing(c) || c.HandedOff?)
    ensures PermitsFollow(c, Unresolved(db, source, id), Unresolved(Commit(cfg, db, c), source, id), source, id)
  {
    hide Permitted, Commit, EndCommit;
    EndCommits(cfg, db, c);
    EndTasks(db, c);
    EndAttempts(db, c);
  }

  lemma BatchPermits(cfg: Config, db: Db, c: Change, source: Portal, id: TaskId)
    requires Permitted(cfg, db, c) && (c.HeldReleased? || c.Reaped? || c.TaskAdded? || c.ReplayAdded?)
    ensures PermitsFollow(c, Unresolved(db, source, id), Unresolved(Commit(cfg, db, c), source, id), source, id)
  {
    hide Permitted, Commit, NewKey, BindingOf;
    QueueCommits(cfg, db, c);
  }

  lemma StartPermits(cfg: Config, db: Db, c: Change, source: Portal, id: TaskId)
    requires Permitted(cfg, db, c) && c.StartGranted?
    ensures PermitsFollow(c, Unresolved(db, source, id), Unresolved(Commit(cfg, db, c), source, id), source, id)
  {
    hide SourceStateAt, LedgerAt, FirstRoute, ChargedSource, OpenUnder, Current, MayStart;
  }

  lemma ObservePermits(cfg: Config, db: Db, c: Change, source: Portal, id: TaskId)
    requires Permitted(cfg, db, c) && c.OutcomeObserved?
    ensures PermitsFollow(c, Unresolved(db, source, id), Unresolved(Commit(cfg, db, c), source, id), source, id)
  {
    hide SourceStateAt, LedgerAt, ObservedSource, Quarantined, OpenUnder, Current, Overruns, Uncharged, Decide;
  }

  lemma ChangePermits(cfg: Config, db: Db, c: Change, source: Portal, id: TaskId)
    requires Permitted(cfg, db, c)
    ensures PermitsFollow(c, Unresolved(db, source, id), Unresolved(Commit(cfg, db, c), source, id), source, id)
  {
    hide Permitted, Commit, Unresolved, PermitsFollow;
    if Outside(c) {
      QueueKept(cfg, db, c);
      SamePermits(db, Commit(cfg, db, c), c, source, id);
    } else if c.HeldReleased? || c.Reaped? || c.TaskAdded? || c.ReplayAdded? {
      BatchPermits(cfg, db, c, source, id);
    } else if Completing(c) || c.HandedOff? {
      EndPermits(cfg, db, c, source, id);
    } else if c.StartGranted? {
      StartPermits(cfg, db, c, source, id);
    } else if c.OutcomeObserved? {
      ObservePermits(cfg, db, c, source, id);
    } else if c.AttemptRefunded? || c.AttemptClosed? {
      FinishPermits(cfg, db, c, source, id);
    } else {
      LeasePermits(cfg, db, c, source, id);
    }
  }

  lemma SamePermits(db: Db, db': Db, c: Change, source: Portal, id: TaskId)
    requires SameQueue(db, db') && Outside(c)
    ensures PermitsFollow(c, Unresolved(db, source, id), Unresolved(db', source, id), source, id)
  {
  }

  /** How the number of unresolved permits moves. */
  lemma PermitCount(cfg: Config, db: Db, c: Change, source: Portal)
    requires Permitted(cfg, db, c)
    ensures var before := UnresolvedSet(db, source);
            var after := UnresolvedSet(Commit(cfg, db, c), source);
            (c.StartGranted? && c.source == source) || |after| <= |before|
    ensures c.OutcomeObserved? && c.source == source ==>
              |UnresolvedSet(Commit(cfg, db, c), source)| + 1 <= |UnresolvedSet(db, source)|
  {
    hide Permitted, Commit, Unresolved;
    var before, after := UnresolvedSet(db, source), UnresolvedSet(Commit(cfg, db, c), source);
    forall id ensures PermitsFollow(c, Unresolved(db, source, id), Unresolved(Commit(cfg, db, c), source, id), source, id) {
      ChangePermits(cfg, db, c, source, id);
    }
    InTasks(db, source);
    InTasks(Commit(cfg, db, c), source);
    if c.OutcomeObserved? && c.source == source {
      assert c.id in before && c.id !in after;
      SubsetSize(after + {c.id}, before);
    } else if !(c.StartGranted? && c.source == source) {
      SubsetSize(after, before);
    }
  }

  lemma InTasks(db: Db, source: Portal)
    ensures forall id :: Unresolved(db, source, id) ==> id in db.tasks
  {
  }

  // ----- the success limit

  function Successes(db: Db, source: Portal): int {
    if source in db.sources then db.sources[source].successCount else 0
  }

  predicate AtMost(policy: SourceBudgetPolicy, db: Db, source: Portal, k: nat) {
    0 <= Successes(db, source)
    && Successes(db, source) + |UnresolvedSet(db, source)| <= policy.dailySuccessLimit - 1 + k
  }

  lemma NextSuccesses(cfg: Config, db: Db, c: Change)
    requires Permitted(cfg, db, c) && Budgeting(c) && 0 <= Successes(db, c.source)
    ensures 0 <= NextSource(cfg, db, c).successCount
    ensures c.StartGranted? ==> c.source in cfg.budgets && NextSource(cfg, db, c).successCount < cfg.budgets[c.source].dailySuccessLimit
    ensures NextSource(cfg, db, c).successCount <= Successes(db, c.source) + if c.OutcomeObserved? then 1 else 0
  {
    hide OpenUnder, Current, Overruns, Decide, EarliestStart;
  }

  lemma ChangeAtMost(cfg: Config, db: Db, c: Change, source: Portal, k: nat)
    requires Permitted(cfg, db, c) && source in cfg.budgets && AtMost(cfg.budgets[source], db, source, k)
    requires |UnresolvedSet(Commit(cfg, db, c), source)| <= k
    ensures AtMost(cfg.budgets[source], Commit(cfg, db, c), source, k)
  {
    hide Permitted, Commit, NextSource, UnresolvedSet;
    SourcesAfter(cfg, db, c);
    PermitCount(cfg, db, c, source);
    if TouchesSource(c, source) {
      NextSuccesses(cfg, db, c);
    }
  }

  /** At no moment of the run does the source have more than `k` permits without an outcome. */
  ghost predicate FewPermits(cfg: Config, steps: seq<Step>, source: Portal, k: nat) {
    forall i :: 0 <= i <= |steps| ==> |UnresolvedSet(Run(cfg, EMPTY, steps[..i]), source)| <= k
  }

  lemma {:induction false} RunAtMost(cfg: Config, steps: seq<Step>, source: Portal, k: nat)
    requires source in cfg.budgets && FewPermits(cfg, steps, source, k)
    ensures Fenced(Run(cfg, EMPTY, steps)) && AtMost(cfg.budgets[source], Run(cfg, EMPTY, steps), source, k)
    decreases |steps|
  {
    hide Fenced, AtMost, Apply, Permitted, Commit, UnresolvedSet;
    if steps == [] {
      EmptyFenced();
      EmptyAtMost(cfg, source, k);
    } else {
      var n := |steps| - 1;
      forall i | 0 <= i <= n ensures |UnresolvedSet(Run(cfg, EMPTY, steps[..n][..i]), source)| <= k {
        assert steps[..n][..i] == steps[..i];
      }
      RunAtMost(cfg, steps[..n], source, k);
      var db := Run(cfg, EMPTY, steps[..n]);
      var c := StepCommits(cfg, db, steps[n]);
      ChangeFenced(cfg, db, c);
      assert steps[..|steps|] == steps;
      ChangeAtMost(cfg, db, c, source, k);
    }
  }

  lemma EmptyAtMost(cfg: Config, source: Portal, k: nat)
    requires source in cfg.budgets
    ensures AtMost(cfg.budgets[source], EMPTY, source, k)
  {
    assert UnresolvedSet(EMPTY, source) == {};
  }

  /** With at most `k` unresolved permits at any time, the success count never exceeds the daily limit
      by more than `k - 1`, for any clock. */
  lemma SuccessesCapped(cfg: Config, steps: seq<Step>, source: Portal, k: nat)
    requires source in cfg.budgets && FewPermits(cfg, steps, source, k)
    ensures Successes(Run(cfg, EMPTY, steps), source) <= cfg.budgets[source].dailySuccessLimit - 1 + k
  {
    hide Fenced, UnresolvedSet;
    RunAtMost(cfg, steps, source, k);
  }
}
