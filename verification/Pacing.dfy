/** Pacing of portal requests: spacing of starts, daily caps, and repeated reservations. */
module Pacing {
  import opened Options
  import opened Contracts
  import opened SourceBudget
  import opened DenialPolicy
  import opened Coordinator
  import opened Fencing
  import opened Changes
  import opened Frames
  import opened Effects
  import opened Fence
  import opened LeaseLife

  // ----- the source row after a change

  predicate TouchesSource(c: Change, source: Portal) {
    Budgeting(c) && c.source == source
  }

  /** The row a budget change leaves for its source. */
  ghost function NextSource(cfg: Config, db: Db, c: Change): SourceState
    requires Permitted(cfg, db, c) && Budgeting(c)
  {
    var s := SourceStateAt(db, c.source, c.now);
    match c
    case StartGranted(source, id, requested, now) => ChargedSource(s, cfg.budgets[source], now)
    case OutcomeObserved(source, id, permit, cl, bytes, d, now) => ObservedSource(s, permit.route, cl, d, now)
    case SourceTouched(source, now) => s
  }

  lemma StartSource(cfg: Config, db: Db, c: Change)
    requires Permitted(cfg, db, c) && c.StartGranted?
    ensures Commit(cfg, db, c).sources == db.sources[c.source := NextSource(cfg, db, c)]
  {
    hide SourceStateAt, LedgerAt, FirstRoute, FallbackConsumed, StartedAttempt, ChargedSource, OpenUnder, Current, MayStart;
  }

  lemma ObserveSource(cfg: Config, db: Db, c: Change)
    requires Permitted(cfg, db, c) && c.OutcomeObserved?
    ensures Commit(cfg, db, c).sources == db.sources[c.source := NextSource(cfg, db, c)]
  {
    hide SourceStateAt, LedgerAt, ObservedSource, ObservedAttempt, Quarantined, FallbackTask, OpenUnder, Current, Overruns, Uncharged, Decide;
  }

  lemma SourcesAfter(cfg: Config, db: Db, c: Change)
    requires Permitted(cfg, db, c)
    ensures Commit(cfg, db, c).sources == if Budgeting(c) then db.sources[c.source := NextSource(cfg, db, c)] else db.sources
  {
    hide Permitted, Commit, NextSource;
    if c.StartGranted? {
      StartSource(cfg, db, c);
    } else if c.OutcomeObserved? {
      ObserveSource(cfg, db, c);
    } else if c.SourceTouched? {
      TouchedSource(cfg, db, c);
    } else {
      BudgetKept(cfg, db, c);
    }
  }

  lemma TouchedSource(cfg: Config, db: Db, c: Change)
    requires Permitted(cfg, db, c) && c.SourceTouched?
    ensures Commit(cfg, db, c).sources == db.sources[c.source := NextSource(cfg, db, c)]
  {
    hide SourceStateAt;
  }

  /** What the guard of a granted start says about the row it charges. */
  lemma StartGuard(cfg: Config, db: Db, c: Change)
    requires Permitted(cfg, db, c) && c.StartGranted?
    ensures var s := SourceStateAt(db, c.source, c.now);
            c.source in cfg.budgets && c.id in db.tasks && MayStart(cfg.budgets[c.source], s, db.tasks[c.id], c.now)
  {
    hide SourceStateAt, OpenUnder, Current, MayStart;
  }

  // ----- start times in the history

  function StartTimes(log: seq<Event>, source: Portal): seq<Time> {
    if log == [] then []
    else
      var e := log[|log| - 1];
      StartTimes(log[..|log| - 1], source) + if e.Started? && e.source == source then [e.at] else []
  }

  /** The start time a change adds to the source's history. */
  function NewStart(c: Change, source: Portal): seq<Time> {
    if c.StartGranted? && c.source == source then [c.now] else []
  }

  lemma StartsAppend(log: seq<Event>, more: seq<Event>, source: Portal)
    requires |more| <= 1
    ensures StartTimes(log + more, source)
            == StartTimes(log, source) + if |more| == 1 && more[0].Started? && more[0].source == source then [more[0].at] else []
  {
    if |more| == 1 {
      assert (log + more)[..|log|] == log;
    } else {
      assert log + more == log;
    }
  }

  lemma StartsAfter(cfg: Config, db: Db, c: Change, source: Portal)
    requires Permitted(cfg, db, c)
    ensures StartTimes(Commit(cfg, db, c).log, source) == StartTimes(db.log, source) + NewStart(c, source)
  {
    hide Permitted, Commit, StartTimes, Grant, RowsAre;
    ChangeEffect(cfg, db, c);
    StartsAppend(db.log, Events(cfg, db, c), source);
  }

  // ----- spacing, for any clock

  /** Start `j` comes at least `j - i` intervals after start `i`. */
  predicate Spaced(times: seq<Time>, interval: int) {
    forall i, j :: 0 <= i < j < |times| ==> times[j] >= times[i] + (j - i) * interval
  }

  lemma SpacedAppend(times: seq<Time>, t: Time, interval: int)
    requires Spaced(times, interval) && (times != [] ==> t >= times[|times| - 1] + interval)
    ensures Spaced(times + [t], interval)
  {
    var n := |times|;
    forall i, j | 0 <= i < j < n + 1 ensures (times + [t])[j] >= (times + [t])[i] + (j - i) * interval {
      if j == n && i < n - 1 {
        assert times[n - 1] >= times[i] + (n - 1 - i) * interval;
        assert (n - i) * interval == (n - 1 - i) * interval + interval;
      }
    }
  }

  ghost predicate Paced(cfg: Config, db: Db, source: Portal) {
    source in cfg.budgets ==>
      var times := StartTimes(db.log, source);
      Spaced(times, cfg.budgets[source].minimumInterval)
      && (times != [] ==>
            source in db.sources
            && db.sources[source].nextStartAt == Some(times[|times| - 1] + cfg.budgets[source].minimumInterval))
  }

  lemma StartIsSpaced(cfg: Config, db: Db, c: Change)
    requires Permitted(cfg, db, c) && c.StartGranted? && Paced(cfg, db, c.source)
    ensures c.source in cfg.budgets
    ensures Spaced(StartTimes(db.log, c.source) + [c.now], cfg.budgets[c.source].minimumInterval)
    ensures NextSource(cfg, db, c).nextStartAt == Some(c.now + cfg.budgets[c.source].minimumInterval)
  {
    hide StartTimes, Permitted, Spaced;
    StartGuard(cfg, db, c);
    SpacedAppend(StartTimes(db.log, c.source), c.now, cfg.budgets[c.source].minimumInterval);
  }

  lemma NextStartKept(cfg: Config, db: Db, c: Change)
    requires Permitted(cfg, db, c) && Budgeting(c) && !c.StartGranted?
    ensures c.source in db.sources ==> NextSource(cfg, db, c).nextStartAt == db.sources[c.source].nextStartAt
  {
    hide Permitted;
  }

  lemma ChangePaced(cfg: Config, db: Db, c: Change, source: Portal)
    requires Permitted(cfg, db, c) && Paced(cfg, db, source)
    ensures Paced(cfg, Commit(cfg, db, c), source)
  {
    hide Permitted, Commit, StartTimes, Spaced, NextSource;
    SourcesAfter(cfg, db, c);
    StartsAfter(cfg, db, c, source);
    if c.StartGranted? && c.source == source {
      StartIsSpaced(cfg, db, c);
    } else {
      assert StartTimes(db.log, source) + [] == StartTimes(db.log, source);
      if TouchesSource(c, source) {
        NextStartKept(cfg, db, c);
      }
    }
  }

  lemma {:induction false} RunPaced(cfg: Config, steps: seq<Step>, source: Portal)
    ensures Fenced(Run(cfg, EMPTY, steps)) && Paced(cfg, Run(cfg, EMPTY, steps), source)
    decreases |steps|
  {
    hide Fenced, Paced, Apply, Permitted, Commit;
    if steps == [] {
      EmptyFenced();
      EmptyPaced(cfg, source);
    } else {
      var n := |steps| - 1;
      RunPaced(cfg, steps[..n], source);
      var db := Run(cfg, EMPTY, steps[..n]);
      var c := StepCommits(cfg, db, steps[n]);
      ChangeFenced(cfg, db, c);
      ChangePaced(cfg, db, c, source);
    }
  }

  lemma EmptyPaced(cfg: Config, source: Portal)
    ensures Paced(cfg, EMPTY, source)
  {
  }

  /** Over every run and any clock, the i-th and j-th granted starts of a source lie at least j - i
      minimum intervals apart. */
  lemma StartsAreSpaced(cfg: Config, steps: seq<Step>, source: Portal, i: int, j: int)
    requires source in cfg.budgets
    requires var times := StartTimes(Run(cfg, EMPTY, steps).log, source); 0 <= i < j < |times|
    ensures var times := StartTimes(Run(cfg, EMPTY, steps).log, source);
            times[j] - times[i] >= (j - i) * cfg.budgets[source].minimumInterval
  {
    hide StartTimes, Fenced, Apply;
    RunPaced(cfg, steps, source);
  }
}
