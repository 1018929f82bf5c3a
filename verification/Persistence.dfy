/** The coordinator's tables as one mutable database, and what every transaction keeps about them. */
module Persistence {
  import opened Contracts
  import opened ScrapeQueue
  import opened SourceBudget
  import opened Coordinator
  import opened Fencing
  import opened Changes
  import opened Effects
  import opened Fence
  import opened LeaseLife

  /** Idempotency keys are unique, as the table demands. */
  ghost predicate UniqueKeys(db: Db) {
    forall id, other :: id in db.tasks && other in db.tasks && db.tasks[id].key == db.tasks[other].key ==> id == other
  }

  lemma NextKey(cfg: Config, db: Db, c: Change, id: TaskId)
    requires Permitted(cfg, db, c) && id in db.tasks
    ensures NextRow(cfg, c, id, db.tasks[id]).key == db.tasks[id].key
  {
    hide Current, OpenUnder, MayStart, Overruns, Uncharged, NewKey, Settled;
  }

  lemma AddedKey(cfg: Config, db: Db, c: Change)
    requires Permitted(cfg, db, c) && (c.TaskAdded? || c.ReplayAdded?)
    ensures NewKey(db, c.task.key)
  {
    hide NewKey, Blank;
  }

  lemma ChangeKeys(cfg: Config, db: Db, c: Change)
    requires Permitted(cfg, db, c) && UniqueKeys(db)
    ensures UniqueKeys(Commit(cfg, db, c))
  {
    hide Permitted, Commit, NextRow;
    var db' := Commit(cfg, db, c);
    ChangeEffect(cfg, db, c);
    forall id | id in db.tasks ensures db'.tasks[id].key == db.tasks[id].key {
      NextKey(cfg, db, c, id);
    }
    if c.TaskAdded? || c.ReplayAdded? {
      AddedKey(cfg, db, c);
      forall id | id in db.tasks ensures db.tasks[id].key != c.task.key {
        assert !HasKey(db, c.task.key, id);
      }
    }
  }

  /** The fencing invariant and the uniqueness of keys. */
  ghost predicate Intact(db: Db) {
    Fenced(db) && UniqueKeys(db)
  }

  lemma OneHolder(db: Db, key: IdempotencyKey, id: TaskId)
    requires Intact(db) && HasKey(db, key, id)
    ensures forall other :: HasKey(db, key, other) ==> other == id
  {
    hide Fenced;
  }

  /** Every transaction keeps both. */
  lemma StepIntact(cfg: Config, db: Db, step: Step)
    requires Intact(db)
    ensures Intact(Apply(cfg, db, step))
  {
    hide Fenced, UniqueKeys, Apply, Permitted, Commit, Advances;
    var c := StepCommits(cfg, db, step);
    ChangeFenced(cfg, db, c);
    ChangeKeys(cfg, db, c);
  }

  /** In every run tasks with equal keys are the same task. */
  lemma {:induction false} KeysStayUnique(cfg: Config, steps: seq<Step>)
    ensures Intact(Run(cfg, EMPTY, steps))
    decreases |steps|
  {
    hide Intact, Apply;
    if steps == [] {
      EmptyIntact();
    } else {
      KeysStayUnique(cfg, steps[..|steps| - 1]);
      StepIntact(cfg, Run(cfg, EMPTY, steps[..|steps| - 1]), steps[|steps| - 1]);
    }
  }

  lemma EmptyIntact()
    ensures Intact(EMPTY)
  {
    EmptyFenced();
  }

  class Database {
    var tasks: map<TaskId, Task>
    var attempts: map<AttemptKey, Attempt>
    var workers: map<WorkerId, Worker>
    var pointers: map<Portal, Pointer>
    var releases: map<Hash, Release>
    var audits: map<Portal, seq<Audit>>
    var captures: map<CaptureId, Capture>
    var results: map<TaskId, ParserResult>
    var discoveries: map<TaskId, Discovery>
    var bindings: map<TaskId, Binding>
    var handoffs: map<HandoffKey, int>
    var sources: map<Portal, SourceState>
    var ledgers: map<int, Ledger>
    var routes: map<RouteId, bool>
    var quarantine: map<QuarantineKey, Time>
    ghost var issued: set<Token>
    ghost var log: seq<Event>

    ghost function State(): Db
      reads this
    {
      Db(tasks, attempts, workers, pointers, releases, audits, captures, results, discoveries, bindings, handoffs,
         sources, ledgers, routes, quarantine, issued, log)
    }

    ghost predicate Valid()
      reads this
    {
      Intact(State())
    }

    constructor ()
      ensures State() == EMPTY && Valid()
    {
      tasks, attempts, workers, pointers, releases := map[], map[], map[], map[], map[];
      audits, captures, results, discoveries, bindings := map[], map[], map[], map[], map[];
      handoffs, sources, ledgers, routes, quarantine := map[], map[], map[], map[], map[];
      issued, log := {}, [];
      new;
      EmptyIntact();
    }

    method FlushCounters(sources: map<Portal, SourceState>, ledgers: map<int, Ledger>)
      modifies this
      ensures State() == old(State()).(sources := sources, ledgers := ledgers)
    {
      this.sources := sources;
      this.ledgers := ledgers;
    }

    method FlushRoutes(routes: map<RouteId, bool>, quarantine: map<QuarantineKey, Time>)
      modifies this
      ensures State() == old(State()).(routes := routes, quarantine := quarantine)
    {
      this.routes := routes;
      this.quarantine := quarantine;
    }

    method FlushRegistry(pointers: map<Portal, Pointer>, releases: map<Hash, Release>, audits: map<Portal, seq<Audit>>)
      modifies this
      ensures State() == old(State()).(pointers := pointers, releases := releases, audits := audits)
    {
      this.pointers := pointers;
      this.releases := releases;
      this.audits := audits;
    }

    method FlushTasks(attempts: map<AttemptKey, Attempt>, tasks: map<TaskId, Task>, ghost event: Event)
      modifies this
      ensures State() == old(State()).(attempts := attempts, tasks := tasks, log := old(log) + [event])
    {
      this.attempts := attempts;
      this.tasks := tasks;
      log := log + [event];
    }

    /** The flush that ends a budget transaction: every changed table. */
    method FlushBudget(sources: map<Portal, SourceState>, ledgers: map<int, Ledger>, attempts: map<AttemptKey, Attempt>,
                       tasks: map<TaskId, Task>, routes: map<RouteId, bool>, quarantine: map<QuarantineKey, Time>, ghost event: Event)
      modifies this
      ensures State() == old(State()).(sources := sources, ledgers := ledgers, attempts := attempts, tasks := tasks,
                                       routes := routes, quarantine := quarantine, log := old(log) + [event])
    {
      FlushCounters(sources, ledgers);
      FlushRoutes(routes, quarantine);
      FlushTasks(attempts, tasks, event);
    }
  }
}
