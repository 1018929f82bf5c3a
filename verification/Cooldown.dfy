/** Denial streaks, cooldowns and direct fallbacks as functions of the outcome history. */
module Cooldown {
  import opened Options
  import opened Contracts
  import opened ScrapeQueue
  import opened SourceBudget
  import opened DenialPolicy
  import opened Coordinator
  import opened Fencing
  import opened Changes
  import opened Effects
  import opened Fence
  import opened LeaseLife
  import opened Pacing

  // ----- what the history says

  /** Direct denials since the last direct success. */
  function Streak(log: seq<Event>, source: Portal): nat {
    if log == [] then 0
    else
      var past, e := Streak(log[..|log| - 1], source), log[|log| - 1];
      if !e.Observed? || e.source != source || !e.route.Direct? then past
      else if e.classification.Success? then 0
      else if e.classification.PortalDenial? then past + 1
      else past
  }

  /** The running maximum of the cooldowns imposed so far. */
  function CooldownEnd(log: seq<Event>, source: Portal): Option<Time> {
    if log == [] then None
    else
      var past, e := CooldownEnd(log[..|log| - 1], source), log[|log| - 1];
      if !e.Observed? || e.source != source || e.cooldown.None? then past
      else Some(Max(ValueOr(past, e.cooldown.value), e.cooldown.value))
  }

  /** The deadline of the task's last direct fallback, until a start uses it up. */
  function FallbackDue(log: seq<Event>, id: TaskId): Option<Time> {
    if log == [] then None
    else
      var past, e := FallbackDue(log[..|log| - 1], id), log[|log| - 1];
      if e.Started? && e.task == id then None
      else if e.Observed? && e.task == id && e.retryDirectAt.Some? then e.retryDirectAt
      else past
  }

  /** The delays of an outcome that followed `streak` direct denials. */
  predicate Delays(e: Event, streak: nat, retryAfter: Option<int>)
    requires e.Observed?
  {
    e.cooldown == (if e.route.Direct? && e.classification.PortalDenial?
                   then Some(e.at + Seconds(Max((if streak == 0 then 6 else if streak == 1 then 12 else 24) * 3600, OrZero(retryAfter))))
                   else None)
    && e.retryDirectAt == (if e.route.Proxy? && e.classification.PortalDenial? then Some(e.at + Seconds(Max(900, OrZero(retryAfter))))
                           else if e.route.Proxy? && e.classification.ProxyInfrastructureFailure? then Some(e.at)
                           else None)
  }

  /** An outcome imposes the policy's delays; a start waits out the cooldown, and answers a pending
      fallback on the direct route at or after its deadline. */
  ghost predicate Obeys(past: seq<Event>, e: Event) {
    (e.Observed? ==> exists retryAfter :: Waits(retryAfter) && Delays(e, Streak(past, e.source), retryAfter))
    && (e.Started? ==>
          ValueOr(CooldownEnd(past, e.source), e.at) <= e.at
          && (FallbackDue(past, e.task).Some? ==> e.route.Direct? && FallbackDue(past, e.task).value <= e.at))
  }

  ghost predicate ObeyedThroughout(log: seq<Event>) {
    forall i :: 0 <= i < |log| ==> Obeys(log[..i], log[i])
  }

  lemma ObeysAppend(log: seq<Event>, more: seq<Event>)
    requires ObeyedThroughout(log) && |more| <= 1 && (|more| == 1 ==> Obeys(log, more[0]))
    ensures ObeyedThroughout(log + more)
  {
    hide Obeys;
    forall i | 0 <= i < |log + more| ensures Obeys((log + more)[..i], (log + more)[i]) {
      if i < |log| {
        assert (log + more)[..i] == log[..i];
      } else {
        assert (log + more)[..i] == log;
      }
    }
  }

  // ----- the rows agree with the history

  predicate SourceTracks(db: Db, source: Portal) {
    if source in db.sources then
      db.sources[source].directDenialCount == Streak(db.log, source)
      && db.sources[source].cooldownUntil == CooldownEnd(db.log, source)
    else Streak(db.log, source) == 0 && CooldownEnd(db.log, source).None?
  }

  predicate TaskTracks(db: Db, id: TaskId) {
    if id in db.tasks then
      db.tasks[id].fallbackAt == FallbackDue(db.log, id)
      && (db.tasks[id].fallbackPending <==> FallbackDue(db.log, id).Some?)
    else FallbackDue(db.log, id).None?
  }

  ghost predicate Tracks(db: Db) {
    (forall source :: SourceTracks(db, source)) && (forall id :: TaskTracks(db, id)) && ObeyedThroughout(db.log)
  }

  /** The event of a change, if any, is about the source or task it names. */
  predicate About(e: Event, c: Change) {
    match e
    case Started(source, task, route, at) => c.StartGranted? && c.source == source && c.id == task && c.now == at
    case Observed(source, task, route, cl, at, cooldown, retry) =>
      c.OutcomeObserved? && c.source == source && c.id == task && c.permit.route == route && c.classification == cl && c.now == at
      && c.decision.sourceCooldownUntil == cooldown && c.decision.retryDirectAt == retry
    case _ => !c.StartGranted? && !c.OutcomeObserved?
  }

  lemma EventAbout(cfg: Config, db: Db, c: Change)
    requires Permitted(cfg, db, c)
    ensures var more := Events(cfg, db, c);
            |more| <= 1 && (more == [] ==> !c.StartGranted? && !c.OutcomeObserved?) && (more != [] ==> About(more[0], c) && !c.SourceTouched?)
  {
    hide Permitted, Grant;
  }

  lemma Append(log: seq<Event>, e: Event)
    ensures (log + [e])[..|log|] == log && (log + [e])[|log|] == e
  {
  }

  lemma ScheduledDelay(route: Route, cl: Classification, now: Time, streak: nat, retryAfter: Option<int>, e: Event)
    requires e.Observed? && e.route == route && e.classification == cl && e.at == now && Waits(retryAfter)
    requires var d := Decide(route, cl, now, streak, retryAfter); e.cooldown == d.sourceCooldownUntil && e.retryDirectAt == d.retryDirectAt
    ensures Delays(e, streak, retryAfter)
    ensures e.cooldown.Some? ==> e.cooldown.value > now
  {
  }

  /** The decision an outcome was recorded with. */
  lemma OutcomeDecision(cfg: Config, db: Db, c: Change) returns (retryAfter: Option<int>)
    requires Permitted(cfg, db, c) && c.OutcomeObserved?
    ensures Waits(retryAfter)
    ensures c.decision == Decide(c.permit.route, c.classification, c.now, SourceStateAt(db, c.source, c.now).directDenialCount, retryAfter)
  {
    hide Current, OpenUnder, Overruns, Uncharged, SourceStateAt, Decide;
    retryAfter :| Waits(retryAfter) &&
      c.decision == Decide(c.permit.route, c.classification, c.now, SourceStateAt(db, c.source, c.now).directDenialCount, retryAfter);
  }

  lemma RolledTracks(db: Db, source: Portal, now: Time)
    requires SourceTracks(db, source)
    ensures SourceStateAt(db, source, now).directDenialCount == Streak(db.log, source)
    ensures SourceStateAt(db, source, now).cooldownUntil == CooldownEnd(db.log, source)
  {
    hide Streak, CooldownEnd;
  }

  lemma OutcomeObeys(cfg: Config, db: Db, c: Change, e: Event)
    requires Permitted(cfg, db, c) && c.OutcomeObserved? && e.Observed? && About(e, c) && SourceTracks(db, c.source)
    ensures Obeys(db.log, e) && (e.cooldown.Some? ==> e.cooldown.value > c.now)
    ensures var s := NextSource(cfg, db, c);
            s.directDenialCount == Streak(db.log + [e], c.source) && s.cooldownUntil == CooldownEnd(db.log + [e], c.source)
  {
    hide Permitted, SourceStateAt;
    var retryAfter := OutcomeDecision(cfg, db, c);
    RolledTracks(db, c.source, c.now);
    ScheduledDelay(c.permit.route, c.classification, c.now, Streak(db.log, c.source), retryAfter, e);
    Append(db.log, e);
  }

  lemma StartObeys(cfg: Config, db: Db, c: Change, e: Event)
    requires Permitted(cfg, db, c) && c.StartGranted? && e.Started? && About(e, c) && SourceTracks(db, c.source) && TaskTracks(db, c.id)
    requires Events(cfg, db, c) == [e]
    ensures Obeys(db.log, e)
    ensures var s := NextSource(cfg, db, c);
            s.directDenialCount == Streak(db.log + [e], c.source) && s.cooldownUntil == CooldownEnd(db.log + [e], c.source)
  {
    hide Permitted, SourceStateAt, Grant;
    StartGuard(cfg, db, c);
    RolledTracks(db, c.source, c.now);
    Append(db.log, e);
    FallbackGoesDirect(cfg, db, c);
  }

  /** A start that answers a pending fallback never takes a proxy route. */
  lemma FallbackGoesDirect(cfg: Config, db: Db, c: Change)
    requires Permitted(cfg, db, c) && c.StartGranted? && c.id in db.tasks
    ensures db.tasks[c.id].fallbackPending ==> Events(cfg, db, c)[0].route.Direct?
  {
    hide SourceStateAt, LedgerAt, FirstRoute, StartedAttempt, ChargedSource, OpenUnder, Current, MayStart;
  }

  lemma SourceAfter(cfg: Config, db: Db, c: Change, source: Portal)
    requires Permitted(cfg, db, c) && Tracks(db)
    ensures SourceTracks(Commit(cfg, db, c), source)
  {
    hide Permitted, Commit, NextSource, RowsAre, TaskTracks, ObeyedThroughout, Obeys, Events, Streak, CooldownEnd, SourceStateAt, About;
    SourcesAfter(cfg, db, c);
    ChangeEffect(cfg, db, c);
    EventAbout(cfg, db, c);
    var more := Events(cfg, db, c);
    assert SourceTracks(db, source);
    if more != [] {
      assert more == [more[0]];
      if c.OutcomeObserved? && c.source == source {
        Names(more[0], c);
        OutcomeObeys(cfg, db, c, more[0]);
      } else if c.StartGranted? && c.source == source {
        assert TaskTracks(db, c.id);
        Names(more[0], c);
        StartObeys(cfg, db, c, more[0]);
      } else {
        OtherSource(db.log, more[0], c, source);
      }
    } else {
      assert db.log + [] == db.log;
      if c.SourceTouched? && c.source == source {
        RolledTracks(db, source, c.now);
        TouchedRow(cfg, db, c);
      }
    }
  }

  lemma Names(e: Event, c: Change)
    requires About(e, c)
    ensures (c.OutcomeObserved? ==> e.Observed?) && (c.StartGranted? ==> e.Started?)
  {
  }

  /** An event about anything else leaves the source's streak and cooldown alone. */
  lemma OtherSource(log: seq<Event>, e: Event, c: Change, source: Portal)
    requires About(e, c) && !((c.OutcomeObserved? || c.StartGranted?) && c.source == source)
    ensures Streak(log + [e], source) == Streak(log, source) && CooldownEnd(log + [e], source) == CooldownEnd(log, source)
  {
    Append(log, e);
  }

  lemma TouchedRow(cfg: Config, db: Db, c: Change)
    requires Permitted(cfg, db, c) && c.SourceTouched?
    ensures NextSource(cfg, db, c) == SourceStateAt(db, c.source, c.now)
  {
    hide SourceStateAt;
  }

  /** The fallback fields of a row after a change. */
  lemma NextFallback(cfg: Config, db: Db, c: Change, id: TaskId)
    requires id in db.tasks
    ensures var t, u := db.tasks[id], NextRow(cfg, c, id, db.tasks[id]);
            if c.StartGranted? && c.id == id then !u.fallbackPending && (t.fallbackPending ==> u.fallbackAt.None?)
                                                 && (!t.fallbackPending ==> u.fallbackAt == t.fallbackAt)
            else if c.OutcomeObserved? && c.id == id && c.decision.retryDirectAt.Some?
            then u.fallbackPending && u.fallbackAt == c.decision.retryDirectAt
            else u.fallbackPending == t.fallbackPending && u.fallbackAt == t.fallbackAt
  {
    hide Settled;
  }

  lemma BlankFallback(cfg: Config, db: Db, c: Change)
    requires Permitted(cfg, db, c) && (c.TaskAdded? || c.ReplayAdded?)
    ensures !c.task.fallbackPending && c.task.fallbackAt.None? && c.id !in db.tasks
  {
  }

  lemma SubjectExists(cfg: Config, db: Db, c: Change)
    requires Permitted(cfg, db, c) && (c.StartGranted? || c.OutcomeObserved?)
    ensures c.id in db.tasks
  {
    hide Current, OpenUnder, MayStart, Overruns, Uncharged, Decide;
  }

  lemma TaskAfter(cfg: Config, db: Db, c: Change, id: TaskId)
    requires Permitted(cfg, db, c) && TaskTracks(db, id)
    ensures TaskTracks(Commit(cfg, db, c), id)
  {
    hide Permitted, Commit, NextRow;
    ChangeEffect(cfg, db, c);
    EventAbout(cfg, db, c);
    var more := Events(cfg, db, c);
    if more != [] {
      assert more == [more[0]];
      Append(db.log, more[0]);
    } else {
      assert db.log + [] == db.log;
    }
    if c.StartGranted? || c.OutcomeObserved? {
      SubjectExists(cfg, db, c);
    }
    if id in db.tasks {
      NextFallback(cfg, db, c, id);
    } else if c.TaskAdded? || c.ReplayAdded? {
      BlankFallback(cfg, db, c);
    }
  }

  lemma LogAfter(cfg: Config, db: Db, c: Change)
    requires Permitted(cfg, db, c) && Tracks(db)
    ensures ObeyedThroughout(Commit(cfg, db, c).log)
  {
    hide Permitted, Commit, Events, SourceTracks, TaskTracks, ObeyedThroughout, Obeys, RowsAre;
    ChangeEffect(cfg, db, c);
    EventAbout(cfg, db, c);
    var more := Events(cfg, db, c);
    if more != [] {
      assert more == [more[0]];
      if c.OutcomeObserved? {
        assert SourceTracks(db, c.source);
        OutcomeObeys(cfg, db, c, more[0]);
      } else if c.StartGranted? {
        assert SourceTracks(db, c.source) && TaskTracks(db, c.id);
        StartObeys(cfg, db, c, more[0]);
      } else {
        OtherEvent(db.log, more[0], c);
      }
    }
    ObeysAppend(db.log, more);
  }

  lemma OtherEvent(past: seq<Event>, e: Event, c: Change)
    requires About(e, c) && !c.StartGranted? && !c.OutcomeObserved?
    ensures Obeys(past, e)
  {
  }

  lemma {:induction false} RunTracks(cfg: Config, steps: seq<Step>)
    ensures Fenced(Run(cfg, EMPTY, steps)) && Tracks(Run(cfg, EMPTY, steps))
    decreases |steps|
  {
    hide Fenced, Apply, Permitted, Commit, SourceTracks, TaskTracks, ObeyedThroughout;
    if steps == [] {
      EmptyFenced();
      EmptyTracks();
    } else {
      var n := |steps| - 1;
      RunTracks(cfg, steps[..n]);
      var db := Run(cfg, EMPTY, steps[..n]);
      var c := StepCommits(cfg, db, steps[n]);
      ChangeFenced(cfg, db, c);
      forall source ensures SourceTracks(Commit(cfg, db, c), source) {
        SourceAfter(cfg, db, c, source);
      }
      forall id ensures TaskTracks(Commit(cfg, db, c), id) {
        TaskAfter(cfg, db, c, id);
      }
      LogAfter(cfg, db, c);
    }
  }

  lemma EmptyTracks()
    ensures Tracks(EMPTY)
  {
  }

  // ----- what it means for whole runs

  /** The stored streak counts the direct denials since the last direct success, and the stored cooldown is
      the running maximum of the cooldowns imposed: rows refine the outcome history. */
  lemma CooldownRefinesHistory(cfg: Config, steps: seq<Step>, source: Portal)
    requires source in Run(cfg, EMPTY, steps).sources
    ensures var db := Run(cfg, EMPTY, steps);
            db.sources[source].directDenialCount == Streak(db.log, source)
            && db.sources[source].cooldownUntil == CooldownEnd(db.log, source)
  {
    hide Fenced, Streak, CooldownEnd;
    RunTracks(cfg, steps);
    assert SourceTracks(Run(cfg, EMPTY, steps), source);
  }

  /** Every outcome in the history carries exactly the policy's delays for the streak it met. */
  lemma OutcomesFollowPolicy(cfg: Config, steps: seq<Step>, i: int)
    requires 0 <= i < |Run(cfg, EMPTY, steps).log| && Run(cfg, EMPTY, steps).log[i].Observed?
    ensures var log := Run(cfg, EMPTY, steps).log;
            exists retryAfter :: Waits(retryAfter) && Delays(log[i], Streak(log[..i], log[i].source), retryAfter)
  {
    hide Fenced, Streak, Delays;
    RunTracks(cfg, steps);
    var log := Run(cfg, EMPTY, steps).log;
    assert Obeys(log[..i], log[i]);
  }

  lemma {:induction false} CooldownGrows(log: seq<Event>, i: int, source: Portal)
    requires 0 <= i < |log| && log[i].Observed? && log[i].source == source && log[i].cooldown.Some?
    ensures CooldownEnd(log, source).Some? && CooldownEnd(log, source).value >= log[i].cooldown.value
    decreases |log|
  {
    if i < |log| - 1 {
      CooldownGrows(log[..|log| - 1], i, source);
    }
  }

  /** No start of a source is ever granted before a cooldown imposed on it has passed. */
  lemma NoStartDuringCooldown(cfg: Config, steps: seq<Step>, i: int, j: int)
    requires 0 <= i < j < |Run(cfg, EMPTY, steps).log|
    requires var log := Run(cfg, EMPTY, steps).log;
             log[i].Observed? && log[i].cooldown.Some? && log[j].Started? && log[j].source == log[i].source
    ensures var log := Run(cfg, EMPTY, steps).log; log[i].cooldown.value <= log[j].at
  {
    hide Fenced, Streak, CooldownEnd, FallbackDue;
    RunTracks(cfg, steps);
    var log := Run(cfg, EMPTY, steps).log;
    assert Obeys(log[..j], log[j]);
    assert log[..j][i] == log[i];
    CooldownGrows(log[..j], i, log[i].source);
  }

  lemma {:induction false} FallbackLasts(log: seq<Event>, i: int, id: TaskId)
    requires 0 <= i < |log| && log[i].Observed? && log[i].task == id && log[i].retryDirectAt.Some?
    requires forall k :: i < k < |log| && (log[k].Started? || log[k].Observed?) ==> log[k].task != id
    ensures FallbackDue(log, id) == log[i].retryDirectAt
    decreases |log|
  {
    if i < |log| - 1 {
      FallbackLasts(log[..|log| - 1], i, id);
    }
  }

  /** After a proxy denial or a proxy infrastructure failure the task's next start is direct and not before
      the deadline that the outcome set. */
  lemma NextStartIsDirect(cfg: Config, steps: seq<Step>, i: int, j: int)
    requires 0 <= i < j < |Run(cfg, EMPTY, steps).log|
    requires var log := Run(cfg, EMPTY, steps).log;
             log[i].Observed? && log[i].route.Proxy? && (log[i].classification.PortalDenial? || log[i].classification.ProxyInfrastructureFailure?)
             && log[j].Started? && log[j].task == log[i].task
             && forall k :: i < k < j && (log[k].Started? || log[k].Observed?) ==> log[k].task != log[i].task
    ensures var log := Run(cfg, EMPTY, steps).log;
            log[j].route.Direct? && log[i].retryDirectAt.Some? && log[i].retryDirectAt.value <= log[j].at
            && log[i].at + (if log[i].classification.PortalDenial? then Seconds(900) else 0) <= log[j].at
  {
    hide Fenced, Streak, CooldownEnd, FallbackDue;
    RunTracks(cfg, steps);
    var log := Run(cfg, EMPTY, steps).log;
    assert Obeys(log[..j], log[j]);
    assert Obeys(log[..i], log[i]);
    assert log[..j][i] == log[i];
    FallbackLasts(log[..j], i, log[i].task);
  }
}
