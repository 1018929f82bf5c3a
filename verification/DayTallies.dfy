/** The daily counters as tallies of the history, and when a success is accepted. */
module DayTallies {
  import opened Options
  import opened Contracts
  import opened SourceBudget
  import opened Coordinator
  import opened Fencing
  import opened Changes
  import opened Effects
  import opened Fence
  import opened LeaseLife
  import opened Pacing
  import opened DailyCaps

  // ----- successes in the history

  predicate IsSuccess(e: Event, source: Portal) {
    e.Observed? && e.source == source && e.classification.Success?
  }

  function SuccessTimes(log: seq<Event>, source: Portal): seq<Time> {
    if log == [] then []
    else
      var e := log[|log| - 1];
      SuccessTimes(log[..|log| - 1], source) + if IsSuccess(e, source) then [e.at] else []
  }

  /** The success a change adds to the source's history. */
  function NewSuccess(c: Change, source: Portal): seq<Time> {
    if c.OutcomeObserved? && c.source == source && c.classification.Success? then [c.now] else []
  }

  lemma SuccessesAppend(log: seq<Event>, more: seq<Event>, source: Portal)
    requires |more| <= 1
    ensures SuccessTimes(log + more, source)
            == SuccessTimes(log, source) + if |more| == 1 && IsSuccess(more[0], source) then [more[0].at] else []
  {
    if |more| == 1 {
      assert (log + more)[..|log|] == log;
    } else {
      assert log + more == log;
    }
  }

  lemma SuccessesAfter(cfg: Config, db: Db, c: Change, source: Portal)
    requires Permitted(cfg, db, c)
    ensures SuccessTimes(Commit(cfg, db, c).log, source) == SuccessTimes(db.log, source) + NewSuccess(c, source)
  {
    hide Permitted, Commit, SuccessTimes, Grant, RowsAre;
    ChangeEffect(cfg, db, c);
    SuccessesAppend(db.log, Events(cfg, db, c), source);
  }

  // ----- the success counter of the last day touched

  ghost predicate TalliesDay(s: SourceState, times: seq<Time>, horizon: Time) {
    s.dayKey <= Day(horizon) && s.successCount == OnDay(times, s.dayKey)
    && forall day :: day > s.dayKey ==> OnDay(times, day) == 0
  }

  ghost predicate Tallied(db: Db, source: Portal, horizon: Time) {
    var times := SuccessTimes(db.log, source);
    if source in db.sources then TalliesDay(db.sources[source], times, horizon) else times == []
  }

  lemma RolledTallies(db: Db, source: Portal, horizon: Time, now: Time)
    requires Tallied(db, source, horizon) && horizon <= now
    ensures TalliesDay(SourceStateAt(db, source, now), SuccessTimes(db.log, source), now)
    ensures SourceStateAt(db, source, now).dayKey == Day(now)
  {
    hide SuccessTimes;
    DayOrder(horizon, now);
  }

  lemma CountedSuccess(s: SourceState, t: SourceState, times: seq<Time>, now: Time)
    requires TalliesDay(s, times, now) && s.dayKey == Day(now)
    requires t.dayKey == s.dayKey && t.successCount == s.successCount + 1
    ensures TalliesDay(t, times + [now], now)
  {
    forall day ensures OnDay(times + [now], day) == OnDay(times, day) + if Day(now) == day then 1 else 0 {
      OnDayAppend(times, now, day);
    }
  }

  /** Only an accepted success moves the counter, and only up by one. */
  lemma NextTally(cfg: Config, db: Db, c: Change)
    requires Permitted(cfg, db, c) && Budgeting(c)
    ensures var s, t := SourceStateAt(db, c.source, c.now), NextSource(cfg, db, c);
            t.dayKey == s.dayKey
            && t.successCount == s.successCount + if c.OutcomeObserved? && c.classification.Success? then 1 else 0
  {
    hide Permitted, SourceStateAt;
  }

  lemma ChangeTallied(cfg: Config, db: Db, c: Change, source: Portal, horizon: Time)
    requires Permitted(cfg, db, c) && Tallied(db, source, horizon)
    requires TouchesSource(c, source) ==> horizon <= c.now
    ensures Tallied(Commit(cfg, db, c), source, if TouchesSource(c, source) then c.now else horizon)
  {
    hide Permitted, Commit, SuccessTimes, OnDay, NextSource, SourceStateAt;
    SourcesAfter(cfg, db, c);
    SuccessesAfter(cfg, db, c, source);
    var times := SuccessTimes(db.log, source);
    assert times + [] == times;
    if TouchesSource(c, source) {
      RolledTallies(db, source, horizon, c.now);
      NextTally(cfg, db, c);
      if NewSuccess(c, source) != [] {
        CountedSuccess(SourceStateAt(db, source, c.now), NextSource(cfg, db, c), times, c.now);
      }
    }
  }

  lemma LaterTallied(db: Db, source: Portal, horizon: Time, later: Time)
    requires Tallied(db, source, horizon) && horizon <= later
    ensures Tallied(db, source, later)
  {
    hide SuccessTimes, OnDay;
    DayOrder(horizon, later);
  }

  lemma {:induction false} RunTallied(cfg: Config, steps: seq<Step>, source: Portal, horizon: Time)
    requires Monotone(steps, source) && AllBy(steps, source, horizon)
    ensures Fenced(Run(cfg, EMPTY, steps)) && Tallied(Run(cfg, EMPTY, steps), source, horizon)
    decreases |steps|
  {
    hide Fenced, Tallied, Apply, Permitted, Commit, Monotone, AllBy, Traces;
    if steps == [] {
      EmptyFenced();
      EmptyTallied(source, horizon);
    } else {
      var n := |steps| - 1;
      PrefixBy(steps, source, horizon);
      var before := Before(steps, source, horizon);
      RunTallied(cfg, steps[..n], source, before);
      var db := Run(cfg, EMPTY, steps[..n]);
      var c := StepCommits(cfg, db, steps[n]);
      TouchTime(steps[n], c, source);
      LastReading(steps, source, horizon);
      ChangeFenced(cfg, db, c);
      ChangeTallied(cfg, db, c, source, before);
      LaterTallied(Commit(cfg, db, c), source, if TouchesSource(c, source) then c.now else before, horizon);
    }
  }

  lemma LastReading(steps: seq<Step>, source: Portal, horizon: Time)
    requires steps != [] && AllBy(steps, source, horizon)
    ensures BudgetClock(steps[|steps| - 1], source).Some? ==> BudgetClock(steps[|steps| - 1], source).value <= horizon
  {
    assert ReadsBy(steps[|steps| - 1], source, horizon);
  }

  lemma EmptyTallied(source: Portal, horizon: Time)
    ensures Tallied(EMPTY, source, horizon)
  {
  }

  // ----- what it means

  /** While the source's clock does not go back, its row at any later reading shows today's starts and today's
      successes, as `snapshot` reports them. */
  lemma CountersAreTallies(cfg: Config, steps: seq<Step>, source: Portal, now: Time)
    requires source in cfg.budgets && Monotone(steps, source) && AllBy(steps, source, now)
    ensures var db := Run(cfg, EMPTY, steps);
            var s := SourceStateAt(db, source, now);
            s.attemptCount == OnDay(StartTimes(db.log, source), Day(now))
            && s.successCount == OnDay(SuccessTimes(db.log, source), Day(now))
  {
    hide Fenced, StartTimes, SuccessTimes, OnDay, Monotone, AllBy, SourceStateAt;
    RunCapped(cfg, steps, source, now);
    RunTallied(cfg, steps, source, now);
    var db := Run(cfg, EMPTY, steps);
    CappedCounts(cfg, db, source, now);
    RolledCounts(db, source, now, now);
    RolledTallies(db, source, now, now);
    DayCount(SourceStateAt(db, source, now), StartTimes(db.log, source), now);
  }

  lemma CappedCounts(cfg: Config, db: Db, source: Portal, horizon: Time)
    requires source in cfg.budgets && Capped(cfg.budgets[source], db, source, horizon)
    ensures source in db.sources ==> CountsDay(db.sources[source], StartTimes(db.log, source), horizon)
    ensures source !in db.sources ==> StartTimes(db.log, source) == []
  {
  }

  /** A success that passes every other guard is accepted exactly while fewer successes than starts fall on the
      current UTC day, whichever day its own start was on. */
  lemma SuccessAcceptedExactly(cfg: Config, steps: seq<Step>, worker: WorkerIdentity, lease: ScrapeLease, permit: NetworkPermit,
                               bytes: int, retryAfter: Option<int>, now: Time)
    requires Monotone(steps, worker.source) && AllBy(steps, worker.source, now)
    requires OutcomeAllowed(cfg, Run(cfg, EMPTY, steps), worker, lease, permit, bytes, retryAfter, now)
    ensures var db := Run(cfg, EMPTY, steps);
            RecordOutcome(cfg, db, worker, lease, permit, Success, bytes, retryAfter, now).1.Ok?
            <==> OnDay(SuccessTimes(db.log, worker.source), Day(now)) < OnDay(StartTimes(db.log, worker.source), Day(now))
  {
    hide Fenced, StartTimes, SuccessTimes, OnDay, Monotone, AllBy, SourceStateAt, RecordOutcome, Admitted, Overruns;
    ReachableFenced(cfg, steps);
    CountersAreTallies(cfg, steps, worker.source, now);
    OutcomeAcceptedExactly(cfg, Run(cfg, EMPTY, steps), worker, lease, permit, Success, bytes, retryAfter, now);
  }
}
