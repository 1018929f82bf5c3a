/** Manual release of held recovery tasks: three batches per parser release, in order, until paused. */
module RecoveryCampaign {
  import opened Options
  import opened Contracts
  import opened SourceBudget
  import opened DenialPolicy
  import opened Coordinator
  import opened Changes
  import opened Effects
  import opened Persistence
  import Fencing
  import Q = ScrapeQueue

  datatype Batch = Fifty | OneFifty | Remainder
  const SEQUENCE := [Fifty, OneFifty, Remainder]

  datatype Campaign = Campaign(nextBatch: nat, paused: Option<string>)
  datatype CampaignKey = CampaignKey(source: Portal, release: Hash)
  datatype Preview = Preview(dryRun: bool, eligible: nat, released: nat, paused: Option<string>)

  /** One executed release. */
  datatype Execution = Execution(key: CampaignKey, batch: Batch, released: seq<TaskId>)

  function CampaignOf(campaigns: map<CampaignKey, Campaign>, key: CampaignKey): Campaign {
    if key in campaigns then campaigns[key] else Campaign(0, None)
  }

  function Size(batch: Batch, held: nat): nat {
    match batch
    case Fifty => if held < 50 then held else 50
    case OneFifty => if held < 150 then held else 150
    case Remainder => held
  }

  predicate Waiting(db: Db, source: Portal, id: TaskId) {
    id in db.tasks && db.tasks[id].source == source && db.tasks[id].state.Held? && db.tasks[id].taskClass.NetworkRecovery?
  }

  predicate Older(db: Db, a: TaskId, b: TaskId)
    requires a in db.tasks && b in db.tasks
  {
    db.tasks[a].createdAt < db.tasks[b].createdAt || (db.tasks[a].createdAt == db.tasks[b].createdAt && a < b)
  }

  ghost predicate OldestFirst(db: Db, held: seq<TaskId>) {
    (forall i :: 0 <= i < |held| ==> held[i] in db.tasks)
    && (forall i, j :: 0 <= i < j < |held| ==> Older(db, held[i], held[j]))
  }

  /** The query's answer: every held recovery task that nobody has locked, oldest first. */
  ghost predicate HeldRows(db: Db, source: Portal, locked: set<TaskId>, held: seq<TaskId>) {
    (forall id :: id in held <==> Waiting(db, source, id) && id !in locked)
    && OldestFirst(db, held)
  }

  /** The answer so far, while the rows of `rest` are still to come. */
  ghost predicate HeldSoFar(db: Db, source: Portal, locked: set<TaskId>, held: seq<TaskId>, rest: set<TaskId>) {
    (forall id :: id in rest || id in held <==> Waiting(db, source, id) && id !in locked)
    && OldestFirst(db, held)
    && (forall id, later :: id in held && later in rest ==> id in db.tasks && later in db.tasks && Older(db, id, later))
  }

  lemma HeldFirst(db: Db, source: Portal, locked: set<TaskId>, rest: set<TaskId>)
    requires forall id :: id in rest <==> Waiting(db, source, id) && id !in locked
    ensures HeldSoFar(db, source, locked, [], rest)
  {
  }

  lemma HeldLeft(db: Db, source: Portal, locked: set<TaskId>, held: seq<TaskId>, rest: set<TaskId>)
    requires HeldSoFar(db, source, locked, held, rest)
    ensures forall id :: id in rest ==> id in db.tasks
  {
    hide Older;
    forall id | id in rest ensures id in db.tasks { assert Waiting(db, source, id); }
  }

  lemma HeldNext(db: Db, source: Portal, locked: set<TaskId>, held: seq<TaskId>, rest: set<TaskId>, first: TaskId)
    requires HeldSoFar(db, source, locked, held, rest) && first in rest && first in db.tasks
    requires forall id :: id in rest && id != first ==> id in db.tasks && Older(db, first, id)
    ensures HeldSoFar(db, source, locked, held + [first], rest - {first})
  {
    var next, left := held + [first], rest - {first};
    forall id ensures id in left || id in next <==> Waiting(db, source, id) && id !in locked {
      assert id in next <==> id in held || id == first;
      assert id in left <==> id in rest && id != first;
    }
    forall i | 0 <= i < |next| ensures next[i] in db.tasks {
      assert i < |held| ==> next[i] == held[i];
    }
    forall i, j | 0 <= i < j < |next| ensures Older(db, next[i], next[j]) {
      assert next[i] == held[i] && (j < |held| ==> next[j] == held[j]);
      assert held[i] in held;
    }
    forall id, later | id in next && later in left ensures id in db.tasks && later in db.tasks && Older(db, id, later) {
      assert id in held || id == first;
    }
  }

  lemma HeldAll(db: Db, source: Portal, locked: set<TaskId>, held: seq<TaskId>, rest: set<TaskId>)
    requires HeldSoFar(db, source, locked, held, rest) && rest == {}
    ensures HeldRows(db, source, locked, held)
  {
    forall id ensures id in held <==> Waiting(db, source, id) && id !in locked {
      assert id !in rest;
    }
  }

  predicate Cooling(db: Db, source: Portal, now: Time) {
    source in db.sources && db.sources[source].cooldownUntil.Some? && db.sources[source].cooldownUntil.value > now
  }

  /** What lets a batch run: an executing operator, no cooldown, an active release whose campaign is not paused,
      and its turn. */
  predicate MayRun(db: Db, campaigns: map<CampaignKey, Campaign>, source: Portal, now: Time, batch: Option<Batch>, execute: bool, actor: bool) {
    execute && batch.Some? && !Cooling(db, source, now) && actor && source in db.pointers
    && var c := CampaignOf(campaigns, CampaignKey(source, db.pointers[source].releaseHash));
       c.paused.None? && c.nextBatch < |SEQUENCE| && batch.value == SEQUENCE[c.nextBatch]
  }

  // ----- the history of a campaign

  function BatchesOf(history: seq<Execution>, key: CampaignKey): seq<Batch> {
    if history == [] then []
    else BatchesOf(history[..|history| - 1], key) + (if history[|history| - 1].key == key then [history[|history| - 1].batch] else [])
  }

  lemma BatchesAppend(history: seq<Execution>, e: Execution, key: CampaignKey)
    ensures BatchesOf(history + [e], key) == BatchesOf(history, key) + (if e.key == key then [e.batch] else [])
  {
    assert (history + [e])[..|history|] == history;
  }

  predicate Sized(e: Execution) {
    (e.batch.Fifty? ==> |e.released| <= 50) && (e.batch.OneFifty? ==> |e.released| <= 150)
  }

  /** Every campaign has run exactly the batches before its next one. */
  ghost predicate InOrder(campaigns: map<CampaignKey, Campaign>, history: seq<Execution>) {
    (forall key :: CampaignOf(campaigns, key).nextBatch <= |SEQUENCE|
                   && BatchesOf(history, key) == SEQUENCE[..CampaignOf(campaigns, key).nextBatch])
    && (forall i :: 0 <= i < |history| ==> Sized(history[i]))
  }

  lemma ExecutionKeepsOrder(campaigns: map<CampaignKey, Campaign>, history: seq<Execution>, key: CampaignKey, e: Execution)
    requires InOrder(campaigns, history) && e.key == key && Sized(e)
    requires CampaignOf(campaigns, key).nextBatch < |SEQUENCE| && e.batch == SEQUENCE[CampaignOf(campaigns, key).nextBatch]
    ensures var c := CampaignOf(campaigns, key);
            InOrder(campaigns[key := c.(nextBatch := c.nextBatch + 1)], history + [e])
  {
    hide BatchesOf;
    var c := CampaignOf(campaigns, key);
    var after := campaigns[key := c.(nextBatch := c.nextBatch + 1)];
    forall other
      ensures CampaignOf(after, other).nextBatch <= |SEQUENCE|
              && BatchesOf(history + [e], other) == SEQUENCE[..CampaignOf(after, other).nextBatch]
    {
      BatchesAppend(history, e, other);
      assert BatchesOf(history, other) == SEQUENCE[..CampaignOf(campaigns, other).nextBatch];
      if other == key {
        assert SEQUENCE[..c.nextBatch] + [SEQUENCE[c.nextBatch]] == SEQUENCE[..c.nextBatch + 1];
      }
    }
  }

  /** No batch of a release runs twice or out of turn: what ever ran for it is a beginning of 50, 150, remainder. */
  lemma BatchesRunOnceInOrder(campaigns: map<CampaignKey, Campaign>, history: seq<Execution>, key: CampaignKey)
    requires InOrder(campaigns, history)
    ensures BatchesOf(history, key) <= SEQUENCE
    ensures forall i, j :: 0 <= i < j < |BatchesOf(history, key)| ==> BatchesOf(history, key)[i] != BatchesOf(history, key)[j]
  {
    hide BatchesOf;
    var n := CampaignOf(campaigns, key).nextBatch;
    assert BatchesOf(history, key) == SEQUENCE[..n];
  }

  // ----- whole runs, among all other steps of the coordinator

  datatype World = World(db: Db, campaigns: map<CampaignKey, Campaign>, history: seq<Execution>)

  /** One step: of the coordinator, or one of the two calls on campaigns.  `held` is the answer of the query. */
  datatype Action =
    | Other(step: Step)
    | Release(source: Portal, now: Time, batch: Option<Batch>, execute: bool, actor: bool, locked: set<TaskId>, held: seq<TaskId>)
    | Pause(source: Portal, release: Hash, reason: string)

  ghost function Act(cfg: Config, w: World, a: Action): World {
    match a
    case Other(step) => if step.ReleaseHeldStep? then w else w.(db := Apply(cfg, w.db, step))
    case Release(source, now, batch, execute, actor, locked, held) =>
      if HeldRows(w.db, source, locked, held) && MayRun(w.db, w.campaigns, source, now, batch, execute, actor)
      then Executed(w, source, now, batch.value, held) else w
    case Pause(source, release, reason) =>
      var key := CampaignKey(source, release);
      w.(campaigns := w.campaigns[key := CampaignOf(w.campaigns, key).(paused := Some(reason))])
  }

  function Executed(w: World, source: Portal, now: Time, batch: Batch, held: seq<TaskId>): World
    requires source in w.db.pointers
  {
    var key := CampaignKey(source, w.db.pointers[source].releaseHash);
    var c := CampaignOf(w.campaigns, key);
    var released := held[..Size(batch, |held|)];
    World(Q.ReleaseHeld(w.db, source, RowSet(released), now), w.campaigns[key := c.(nextBatch := c.nextBatch + 1)],
          w.history + [Execution(key, batch, released)])
  }

  ghost function ActAll(cfg: Config, w: World, actions: seq<Action>): World
    decreases |actions|
  {
    if actions == [] then w else Act(cfg, ActAll(cfg, w, actions[..|actions| - 1]), actions[|actions| - 1])
  }

  const START := World(EMPTY, map[], [])

  /** The batch that comes next for a release. */
  function NextBatch(campaigns: map<CampaignKey, Campaign>, key: CampaignKey): Option<Batch> {
    var done := if key in campaigns then campaigns[key].nextBatch else 0;
    if done == 0 then Some(Fifty) else if done == 1 then Some(OneFifty) else if done == 2 then Some(Remainder) else None
  }

  /** The batch has released the oldest held tasks: up to 50, up to 150, or all of them. */
  ghost predicate Released(w: World, w': World, key: CampaignKey, now: Time, batch: Batch, held: seq<TaskId>) {
    var limit := if batch == Fifty then 50 else if batch == OneFifty then 150 else |held|;
    var released := held[..if |held| < limit then |held| else limit];
    w' == World(w.db.(tasks := w'.db.tasks), w.campaigns[key := Campaign(CampaignOf(w.campaigns, key).nextBatch + 1, None)],
                w.history + [Execution(key, batch, released)])
    && w'.db.tasks.Keys == w.db.tasks.Keys
    && forall id :: id in w.db.tasks ==>
         w'.db.tasks[id] == if id in released then w.db.tasks[id].(state := Pending, availableAt := now) else w.db.tasks[id]
  }

  lemma ExecutedReleases(w: World, source: Portal, now: Time, batch: Batch, locked: set<TaskId>, held: seq<TaskId>)
    requires source in w.db.pointers && HeldRows(w.db, source, locked, held)
    requires CampaignOf(w.campaigns, CampaignKey(source, w.db.pointers[source].releaseHash)).paused.None?
    ensures Released(w, Executed(w, source, now, batch, held), CampaignKey(source, w.db.pointers[source].releaseHash), now, batch, held)
  {
    hide OldestFirst;
    var released := held[..Size(batch, |held|)];
    forall id | id in released ensures Waiting(w.db, source, id) {
      assert id in held;
    }
  }

  /** A batch runs exactly if an actor executes it while the portal is not cooling down and has an active release, whose
      campaign is not paused and has this batch next.  It then makes the oldest held tasks claimable from now on; otherwise
      nothing changes. */
  lemma BatchRunsExactly(cfg: Config, w: World, source: Portal, now: Time, batch: Option<Batch>, execute: bool, actor: bool,
                         locked: set<TaskId>, held: seq<TaskId>)
    requires HeldRows(w.db, source, locked, held)
    ensures var w' := Act(cfg, w, Action.Release(source, now, batch, execute, actor, locked, held));
            var cooling := source in w.db.sources && w.db.sources[source].cooldownUntil.Some? && now < w.db.sources[source].cooldownUntil.value;
            if !(execute && actor && batch.Some? && !cooling && source in w.db.pointers) then w' == w
            else
              var key := CampaignKey(source, w.db.pointers[source].releaseHash);
              if (key in w.campaigns && w.campaigns[key].paused.Some?) || NextBatch(w.campaigns, key) != batch then w' == w
              else Released(w, w', key, now, batch.value, held)
  {
    hide Executed, Released, HeldRows;
    if source in w.db.pointers && batch.Some? && CampaignOf(w.campaigns, CampaignKey(source, w.db.pointers[source].releaseHash)).paused.None? {
      ExecutedReleases(w, source, now, batch.value, locked, held);
    }
  }

  /** What has been released is never held again. */
  ghost predicate Gone(w: World, i: int)
    requires 0 <= i < |w.history|
  {
    forall id :: id in w.history[i].released ==> id in w.db.tasks && !w.db.tasks[id].state.Held?
  }

  predicate Apart(history: seq<Execution>, i: int, j: int)
    requires 0 <= i < |history| && 0 <= j < |history|
  {
    forall id :: id in history[i].released ==> id !in history[j].released
  }

  ghost predicate Orderly(w: World) {
    Intact(w.db) && InOrder(w.campaigns, w.history)
    && (forall i :: 0 <= i < |w.history| ==> Gone(w, i))
    && (forall i, j :: 0 <= i < j < |w.history| ==> Apart(w.history, i, j))
  }

  /** A step of the coordinator holds nothing back that was not held. */
  predicate HoldsNothing(db: Db, db': Db) {
    forall id :: id in db.tasks && !db.tasks[id].state.Held? ==> id in db'.tasks && !db'.tasks[id].state.Held?
  }

  lemma NextNotHeld(cfg: Config, db: Db, c: Change, id: TaskId)
    requires Permitted(cfg, db, c) && id in db.tasks && !db.tasks[id].state.Held?
    ensures !NextRow(cfg, c, id, db.tasks[id]).state.Held?
  {
    hide Current, Fencing.OpenUnder, MayStart, Overruns, Uncharged, Decide, NewKey, Q.Backoff;
  }

  lemma StepHoldsNothing(cfg: Config, db: Db, step: Step)
    requires Intact(db)
    ensures HoldsNothing(db, Apply(cfg, db, step))
  {
    hide Fencing.Fenced, Apply, Permitted, Commit, NextRow;
    var c := StepCommits(cfg, db, step);
    ChangeEffect(cfg, db, c);
    forall id | id in db.tasks && !db.tasks[id].state.Held? ensures !NextRow(cfg, c, id, db.tasks[id]).state.Held? {
      NextNotHeld(cfg, db, c, id);
    }
  }

  lemma OtherOrderly(cfg: Config, w: World, step: Step)
    requires Orderly(w)
    ensures Orderly(w.(db := Apply(cfg, w.db, step)))
  {
    hide Intact, InOrder, Apply, HoldsNothing, Apart;
    StepIntact(cfg, w.db, step);
    StepHoldsNothing(cfg, w.db, step);
    forall i | 0 <= i < |w.history| ensures Gone(w.(db := Apply(cfg, w.db, step)), i) {
      StaysGone(w, w.(db := Apply(cfg, w.db, step)), i);
    }
  }

  lemma StaysGone(w: World, w': World, i: int)
    requires 0 <= i < |w.history| && w.history <= w'.history && Gone(w, i) && HoldsNothing(w.db, w'.db)
    ensures Gone(w', i)
  {
  }

  /** The rows a batch releases were held, and now are not. */
  lemma ReleasedRows(db: Db, source: Portal, locked: set<TaskId>, held: seq<TaskId>, n: nat, now: Time)
    requires HeldRows(db, source, locked, held) && n <= |held|
    ensures var db' := Q.ReleaseHeld(db, source, RowSet(held[..n]), now);
            HoldsNothing(db, db')
            && (forall id :: id in held[..n] ==> id in db.tasks && db.tasks[id].state.Held? && id in db'.tasks && !db'.tasks[id].state.Held?)
  {
    hide Older;
    forall id | id in held[..n] ensures Waiting(db, source, id) {
      assert id in held;
    }
  }

  lemma ExecutedOrderly(cfg: Config, w: World, source: Portal, now: Time, batch: Batch, locked: set<TaskId>, held: seq<TaskId>)
    requires Orderly(w) && HeldRows(w.db, source, locked, held) && MayRun(w.db, w.campaigns, source, now, Some(batch), true, true)
    ensures Orderly(Executed(w, source, now, batch, held))
  {
    hide Intact, InOrder, HeldRows, HoldsNothing, BatchesOf, Q.ReleaseHeld;
    var key := CampaignKey(source, w.db.pointers[source].releaseHash);
    var n := Size(batch, |held|);
    var e := Execution(key, batch, held[..n]);
    var w' := Executed(w, source, now, batch, held);
    ReleasedRows(w.db, source, locked, held, n, now);
    ExecutionKeepsOrder(w.campaigns, w.history, key, e);
    HeldIntact(cfg, w.db, source, RowSet(held[..n]), now);
    forall i | 0 <= i < |w'.history| ensures Gone(w', i) {
      if i < |w.history| {
        StaysGone(w, w', i);
      }
    }
    forall i, j | 0 <= i < j < |w'.history| ensures Apart(w'.history, i, j) {
      if j < |w.history| {
        assert Apart(w.history, i, j);
      } else {
        assert Gone(w, i);
      }
    }
  }

  lemma PauseKeepsOrder(campaigns: map<CampaignKey, Campaign>, history: seq<Execution>, key: CampaignKey, reason: string)
    requires InOrder(campaigns, history)
    ensures InOrder(campaigns[key := CampaignOf(campaigns, key).(paused := Some(reason))], history)
  {
    hide BatchesOf;
    var after := campaigns[key := CampaignOf(campaigns, key).(paused := Some(reason))];
    assert forall other :: CampaignOf(after, other).nextBatch == CampaignOf(campaigns, other).nextBatch;
  }

  lemma ActOrderly(cfg: Config, w: World, a: Action)
    requires Orderly(w)
    ensures Orderly(Act(cfg, w, a))
  {
    hide Intact, InOrder, Apply, HeldRows, Executed, Gone, Apart;
    match a
    case Other(step) =>
      if !step.ReleaseHeldStep? {
        OtherOrderly(cfg, w, step);
      }
    case Release(source, now, batch, execute, actor, locked, held) =>
      if HeldRows(w.db, source, locked, held) && MayRun(w.db, w.campaigns, source, now, batch, execute, actor) {
        ExecutedOrderly(cfg, w, source, now, batch.value, locked, held);
      }
    case Pause(source, release, reason) =>
      PauseKeepsOrder(w.campaigns, w.history, CampaignKey(source, release), reason);
      PausedOrderly(w, Act(cfg, w, a));
  }

  lemma PausedOrderly(w: World, w': World)
    requires Orderly(w) && InOrder(w'.campaigns, w'.history) && w'.db == w.db && w'.history == w.history
    ensures Orderly(w')
  {
    hide Intact, InOrder;
    forall i | 0 <= i < |w'.history| ensures Gone(w', i) {
      assert Gone(w, i);
    }
  }

  lemma {:induction false} AllOrderly(cfg: Config, w: World, actions: seq<Action>)
    requires Orderly(w)
    ensures Orderly(ActAll(cfg, w, actions))
    decreases |actions|
  {
    hide Orderly, Act;
    if actions != [] {
      AllOrderly(cfg, w, actions[..|actions| - 1]);
      ActOrderly(cfg, ActAll(cfg, w, actions[..|actions| - 1]), actions[|actions| - 1]);
    }
  }

  lemma RunOrderly(cfg: Config, actions: seq<Action>)
    ensures Orderly(ActAll(cfg, START, actions))
  {
    hide Orderly, ActAll;
    StartOrderly();
    AllOrderly(cfg, START, actions);
  }

  lemma StartOrderly()
    ensures Orderly(START)
  {
    EmptyIntact();
  }

  /** Over every run of operators, workers and all other parties: what ever ran for a release is a beginning of 50,
      150, remainder; the first two batches keep to their sizes; and no task is ever released twice. */
  lemma CampaignsAreOrderly(cfg: Config, actions: seq<Action>, key: CampaignKey, i: int, j: int)
    ensures var history := ActAll(cfg, START, actions).history;
            BatchesOf(history, key) <= SEQUENCE
            && (0 <= i < |history| ==> Sized(history[i]))
            && (0 <= i < j < |history| ==> forall id :: id in history[i].released ==> id !in history[j].released)
  {
    hide Act, Intact, BatchesOf;
    RunOrderly(cfg, actions);
    var w := ActAll(cfg, START, actions);
    BatchesRunOnceInOrder(w.campaigns, w.history, key);
    if 0 <= i < j < |w.history| {
      assert Apart(w.history, i, j);
    }
  }

  predicate Closed(w: World, key: CampaignKey) {
    CampaignOf(w.campaigns, key).paused.Some? || CampaignOf(w.campaigns, key).nextBatch == |SEQUENCE|
  }

  lemma ActStaysClosed(cfg: Config, w: World, a: Action, key: CampaignKey)
    requires Closed(w, key)
    ensures Closed(Act(cfg, w, a), key) && BatchesOf(Act(cfg, w, a).history, key) == BatchesOf(w.history, key)
  {
    hide Apply, HeldRows, BatchesOf, Q.ReleaseHeld;
    if a.Release? && HeldRows(w.db, a.source, a.locked, a.held) && MayRun(w.db, w.campaigns, a.source, a.now, a.batch, a.execute, a.actor) {
      var released := a.held[..Size(a.batch.value, |a.held|)];
      BatchesAppend(w.history, Execution(CampaignKey(a.source, w.db.pointers[a.source].releaseHash), a.batch.value, released), key);
    }
  }

  lemma {:induction false} StaysClosed(cfg: Config, w: World, actions: seq<Action>, key: CampaignKey)
    requires Closed(w, key)
    ensures Closed(ActAll(cfg, w, actions), key) && BatchesOf(ActAll(cfg, w, actions).history, key) == BatchesOf(w.history, key)
    decreases |actions|
  {
    hide Act, BatchesOf, Closed;
    if actions != [] {
      StaysClosed(cfg, w, actions[..|actions| - 1], key);
      ActStaysClosed(cfg, ActAll(cfg, w, actions[..|actions| - 1]), actions[|actions| - 1], key);
    }
  }

  lemma NowClosed(cfg: Config, before: seq<Action>, key: CampaignKey)
    requires var w := ActAll(cfg, START, before);
             CampaignOf(w.campaigns, key).paused.Some? || Remainder in BatchesOf(w.history, key)
    ensures var w := ActAll(cfg, START, before); Closed(w, key) && Orderly(w)
  {
    hide Act, BatchesOf, Intact;
    RunOrderly(cfg, before);
    var w := ActAll(cfg, START, before);
    var n := CampaignOf(w.campaigns, key).nextBatch;
    assert BatchesOf(w.history, key) == SEQUENCE[..n];
    if n < |SEQUENCE| {
      assert SEQUENCE[..n] <= [Fifty, OneFifty];
    }
  }

  /** Nothing resumes a campaign: once it is paused or its remainder has run, no continuation runs another batch for
      the release, whatever is held by then. */
  lemma ClosedForGood(cfg: Config, before: seq<Action>, after: seq<Action>, key: CampaignKey)
    requires var w := ActAll(cfg, START, before);
             CampaignOf(w.campaigns, key).paused.Some? || Remainder in BatchesOf(w.history, key)
    ensures var w := ActAll(cfg, START, before);
            BatchesOf(ActAll(cfg, w, after).history, key) == BatchesOf(w.history, key)
  {
    hide Act, BatchesOf, Intact;
    NowClosed(cfg, before, key);
    var w := ActAll(cfg, START, before);
    StaysClosed(cfg, w, after, key);
  }

  // ----- what a closed campaign leaves behind

  /** Only a batch ends a hold. */
  lemma NextStaysHeld(cfg: Config, db: Db, c: Change, id: TaskId)
    requires Permitted(cfg, db, c) && !c.HeldReleased? && id in db.tasks && db.tasks[id].state.Held?
    ensures NextRow(cfg, c, id, db.tasks[id]) == db.tasks[id]
  {
    hide Permitted, Commit, QueueCommit, LeaseCommit, EndCommit, BudgetCommit, NewKey, Blank;
    hide Q.ReapedTask, Q.ClaimedTask, Q.FinishedTask, Q.RefundedTask, Q.SucceededTask, FallbackConsumed, FallbackTask;
    if Queueing(c) {
      QueueCommits(cfg, db, c);
    } else if Holding(c) {
      LeaseCommits(cfg, db, c);
    } else if Finishing(c) {
      EndCommits(cfg, db, c);
    } else if Budgeting(c) {
      BudgetCommits(cfg, db, c);
    }
  }

  lemma StepStaysHeld(cfg: Config, db: Db, step: Step, source: Portal, id: TaskId)
    requires Intact(db) && !step.ReleaseHeldStep? && Waiting(db, source, id)
    ensures Waiting(Apply(cfg, db, step), source, id)
  {
    hide Fencing.Fenced, Apply, Permitted, Commit, NextRow;
    var c := StepCommits(cfg, db, step);
    ChangeEffect(cfg, db, c);
    NextStaysHeld(cfg, db, c, id);
  }

  /** The portal runs under the campaign's release. */
  predicate Serves(db: Db, key: CampaignKey) {
    key.source in db.pointers && db.pointers[key.source].releaseHash == key.release
  }

  lemma ActStaysHeld(cfg: Config, w: World, a: Action, key: CampaignKey, id: TaskId)
    requires Intact(w.db) && Closed(w, key) && Serves(w.db, key) && Waiting(w.db, key.source, id)
    ensures Waiting(Act(cfg, w, a).db, key.source, id)
  {
    hide Intact, Apply, HeldRows;
    match a
    case Other(step) =>
      if !step.ReleaseHeldStep? {
        StepStaysHeld(cfg, w.db, step, key.source, id);
      }
    case Release(source, now, batch, execute, actor, locked, held) =>
      if MayRun(w.db, w.campaigns, source, now, batch, execute, actor) {
        assert source != key.source;
      }
    case Pause(_, _, _) =>
  }

  /** Once a release's campaign is paused or its remainder has run, what is held for the portal stays held: in every
      continuation, for as long as the portal serves that release. */
  lemma {:induction false} HeldForGood(cfg: Config, before: seq<Action>, after: seq<Action>, key: CampaignKey, id: TaskId)
    requires var w := ActAll(cfg, START, before);
             (CampaignOf(w.campaigns, key).paused.Some? || Remainder in BatchesOf(w.history, key)) && Waiting(w.db, key.source, id)
    requires forall n :: 0 <= n < |after| ==> Serves(ActAll(cfg, ActAll(cfg, START, before), after[..n]).db, key)
    ensures Waiting(ActAll(cfg, ActAll(cfg, START, before), after).db, key.source, id)
    decreases |after|
  {
    hide Act, BatchesOf, Intact, Waiting, Closed;
    var w := ActAll(cfg, START, before);
    if after != [] {
      var n := |after| - 1;
      assert forall m :: 0 <= m < n ==> after[..n][..m] == after[..m];
      HeldForGood(cfg, before, after[..n], key, id);
      NowClosed(cfg, before, key);
      StaysClosed(cfg, w, after[..n], key);
      AllOrderly(cfg, w, after[..n]);
      ActStaysHeld(cfg, ActAll(cfg, w, after[..n]), after[n], key, id);
    }
  }

  lemma HeldIntact(cfg: Config, db: Db, source: Portal, batch: set<TaskId>, now: Time)
    requires Intact(db)
    ensures Intact(Q.ReleaseHeld(db, source, batch, now))
  {
    hide Intact, Q.ReleaseHeld;
    StepIntact(cfg, db, ReleaseHeldStep(source, batch, now));
  }

  lemma ReleaseNext(db: Db, source: Portal, done: set<TaskId>, id: TaskId, now: Time)
    requires Waiting(db, source, id) && id !in done
    ensures var mid := Q.ReleaseHeld(db, source, done, now);
            id in mid.tasks && mid.tasks[id] == db.tasks[id]
            && Q.ReleaseHeld(db, source, done + {id}, now)
               == mid.(tasks := mid.tasks[id := mid.tasks[id].(state := Pending, availableAt := now)])
  {
    var mid, next := Q.ReleaseHeld(db, source, done, now), Q.ReleaseHeld(db, source, done + {id}, now);
    assert next.tasks == mid.tasks[id := mid.tasks[id].(state := Pending, availableAt := now)];
  }

  lemma ReleaseNone(db: Db, source: Portal, now: Time)
    ensures Q.ReleaseHeld(db, source, {}, now) == db
  {
    assert Q.ReleaseHeld(db, source, {}, now).tasks == db.tasks;
  }

  /** The recovery side of `ParserRecoveryRepository`, with its own table of campaigns. */
  class NetworkRecovery {
    const database: Database
    const cfg: Config
    var campaigns: map<CampaignKey, Campaign>
    ghost var history: seq<Execution>

    ghost predicate Valid()
      reads this, database
    {
      database.Valid() && InOrder(campaigns, history)
    }

    constructor (database: Database, cfg: Config)
      requires database.Valid()
      ensures Valid() && this.database == database && this.cfg == cfg && campaigns == map[] && history == []
    {
      this.database, this.cfg, campaigns, history := database, cfg, map[], [];
    }

    method Oldest(rest: set<TaskId>) returns (first: TaskId)
      requires rest != {} && forall id :: id in rest ==> id in database.tasks
      ensures first in rest && forall id :: id in rest && id != first ==> Older(database.State(), first, id)
    {
      assert (forall id :: id !in rest) ==> rest == {};
      first :| first in rest;
      var left := rest - {first};
      while left != {}
        invariant first in rest && left <= rest && first !in left
        invariant forall id :: id in rest && id !in left && id != first ==> Older(database.State(), first, id)
        decreases |left|
      {
        assert (forall id :: id !in left) ==> left == {};
        var id :| id in left;
        left := left - {id};
        var x, y := database.tasks[id].createdAt, database.tasks[first].createdAt;
        if x < y || (x == y && id < first) {
          first := id;
        }
      }
    }

    method HeldTasks(source: Portal, locked: set<TaskId>) returns (held: seq<TaskId>)
      ensures HeldRows(database.State(), source, locked, held)
    {
      hide HeldSoFar, HeldRows, Older;
      ghost var db := database.State();
      held := [];
      var rest := set id | id in database.tasks && id !in locked && database.tasks[id].source == source
        && database.tasks[id].state.Held? && database.tasks[id].taskClass.NetworkRecovery?;
      HeldFirst(db, source, locked, rest);
      while rest != {}
        invariant HeldSoFar(db, source, locked, held, rest)
        decreases |rest|
      {
        HeldLeft(db, source, locked, held, rest);
        var first := Oldest(rest);
        HeldNext(db, source, locked, held, rest, first);
        held := held + [first];
        rest := rest - {first};
      }
      HeldAll(db, source, locked, held, rest);
    }

    /** Each task of the batch becomes claimable. */
    method Release(source: Portal, held: seq<TaskId>, count: nat, locked: set<TaskId>, now: Time)
      requires database.Valid() && HeldRows(database.State(), source, locked, held) && count <= |held|
      modifies database
      ensures database.Valid()
      ensures database.State() == Q.ReleaseHeld(old(database.State()), source, RowSet(held[..count]), now)
    {
      hide Intact, Q.ReleaseHeld;
      ghost var before := database.State();
      HeldIntact(cfg, before, source, RowSet(held[..count]), now);
      ReleaseNone(before, source, now);
      assert RowSet(held[..0]) == {};
      for i := 0 to count
        invariant database.State() == Q.ReleaseHeld(before, source, RowSet(held[..i]), now)
      {
        var id := held[i];
        assert id in held && id !in RowSet(held[..i]);
        ReleaseNext(before, source, RowSet(held[..i]), id, now);
        assert RowSet(held[..i + 1]) == RowSet(held[..i]) + {id};
        database.tasks := database.tasks[id := database.tasks[id].(state := Pending, availableAt := now)];
      }
    }

    /** `release_network_batch`: a batch runs exactly when `MayRun` says so, and then releases the oldest held
        tasks, as many as its size allows; otherwise nothing changes. */
    method ReleaseNetworkBatch(source: Portal, now: Time, batch: Option<Batch>, execute: bool, actor: bool, locked: set<TaskId>)
      returns (reply: Reply<Preview>, ghost held: seq<TaskId>)
      requires Valid()
      modifies this, database
      ensures Valid() && HeldRows(old(database.State()), source, locked, held)
      ensures World(database.State(), campaigns, history)
              == Act(cfg, old(World(database.State(), campaigns, history)), Action.Release(source, now, batch, execute, actor, locked, held))
      ensures if MayRun(old(database.State()), old(campaigns), source, now, batch, execute, actor)
              then reply == Ok(Preview(false, |held|, Size(batch.value, |held|), None))
              else reply.Ok? ==> reply.value.released == 0
    {
      hide Intact, InOrder, Apply, Executed, HeldRows;
      var rows := HeldTasks(source, locked);
      held := rows;
      var paused := source in database.sources && database.sources[source].cooldownUntil.Some?
        && database.sources[source].cooldownUntil.value > now;
      if !execute || batch.None? || paused {
        return Ok(Preview(true, |rows|, 0, if paused then Some("source-cooldown") else None)), held;
      }
      if !actor {
        return Invalid, held;
      }
      if source !in database.pointers {
        return Ok(Preview(false, 0, 0, None)), held;
      }
      var key := CampaignKey(source, database.pointers[source].releaseHash);
      var campaign := if key in campaigns then campaigns[key] else Campaign(0, None);
      if campaign.paused.Some? {
        return Ok(Preview(true, |rows|, 0, campaign.paused)), held;
      }
      if campaign.nextBatch >= |SEQUENCE| || batch.value != SEQUENCE[campaign.nextBatch] {
        return Invalid, held;
      }
      RunBatch(source, now, batch.value, rows, locked);
      reply := Ok(Preview(false, |rows|, Size(batch.value, |rows|), None));
    }

    /** A batch in its turn. */
    method RunBatch(source: Portal, now: Time, batch: Batch, held: seq<TaskId>, locked: set<TaskId>)
      requires Valid() && HeldRows(database.State(), source, locked, held)
      requires MayRun(database.State(), campaigns, source, now, Some(batch), true, true)
      modifies this, database
      ensures Valid()
      ensures World(database.State(), campaigns, history) == Executed(old(World(database.State(), campaigns, history)), source, now, batch, held)
    {
      hide Intact, InOrder, HeldRows, Q.ReleaseHeld;
      var key := CampaignKey(source, database.pointers[source].releaseHash);
      var campaign := if key in campaigns then campaigns[key] else Campaign(0, None);
      var count := Size(batch, |held|);
      ghost var e := Execution(key, batch, held[..count]);
      ExecutionKeepsOrder(campaigns, history, key, e);
      Release(source, held, count, locked, now);
      campaigns := campaigns[key := campaign.(nextBatch := campaign.nextBatch + 1)];
      history := history + [e];
    }

    /** `pause_network_recovery`: nothing ever takes the reason away again. */
    method Pause(source: Portal, release: Hash, reason: string)
      requires Valid()
      modifies this
      ensures Valid()
      ensures World(database.State(), campaigns, history)
              == Act(cfg, old(World(database.State(), campaigns, history)), Action.Pause(source, release, reason))
    {
      hide Intact, InOrder, Apply, Executed, HeldRows;
      var key := CampaignKey(source, release);
      PauseKeepsOrder(campaigns, history, key, reason);
      var campaign := if key in campaigns then campaigns[key] else Campaign(0, None);
      campaigns := campaigns[key := campaign.(paused := Some(reason))];
    }
  }
}
