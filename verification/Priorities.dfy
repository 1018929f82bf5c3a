/** What a claim may pick before what: live work first, then recovery, then discovery. */
module Priorities {
  import opened Options
  import opened Contracts
  import opened ScrapeQueue
  import opened SourceBudget
  import opened DenialPolicy
  import opened Coordinator
  import opened Fencing
  import opened Changes
  import opened Effects
  import opened Fence
  import opened LeaseLife

  /** A row keeps the priority of its class. */
  ghost predicate Ranked(db: Db) {
    forall id :: id in db.tasks ==> db.tasks[id].priority == Priority(db.tasks[id].taskClass)
  }

  lemma NextRank(cfg: Config, db: Db, c: Change, id: TaskId)
    requires Permitted(cfg, db, c) && id in db.tasks
    ensures var t := NextRow(cfg, c, id, db.tasks[id]);
            t.priority == db.tasks[id].priority && t.taskClass == db.tasks[id].taskClass
  {
    hide Current, OpenUnder, MayStart, Overruns, Uncharged, Decide, NewKey, Settled, Requested;
  }

  lemma AddedRank(cfg: Config, db: Db, c: Change)
    requires Permitted(cfg, db, c) && (c.TaskAdded? || c.ReplayAdded?)
    ensures c.task.priority == Priority(c.task.taskClass)
  {
    hide NewKey;
  }

  lemma {:induction false} RunRanked(cfg: Config, steps: seq<Step>)
    ensures Fenced(Run(cfg, EMPTY, steps)) && Ranked(Run(cfg, EMPTY, steps))
    decreases |steps|
  {
    hide Fenced, Apply, Permitted, Commit, NextRow, Advances;
    if steps == [] {
      EmptyFenced();
    } else {
      var n := |steps| - 1;
      RunRanked(cfg, steps[..n]);
      var db := Run(cfg, EMPTY, steps[..n]);
      var c := StepCommits(cfg, db, steps[n]);
      ChangeFenced(cfg, db, c);
      ChangeEffect(cfg, db, c);
      if c.TaskAdded? || c.ReplayAdded? {
        AddedRank(cfg, db, c);
      }
      forall id | id in db.tasks
        ensures NextRow(cfg, c, id, db.tasks[id]).priority == Priority(NextRow(cfg, c, id, db.tasks[id]).taskClass)
      {
        NextRank(cfg, db, c, id);
      }
    }
  }

  /** In every reachable database a claim that may take live work takes live work, and discovery waits for
      everything else; among tasks of one class the one that became available first wins. */
  lemma LiveWorkFirst(cfg: Config, steps: seq<Step>, worker: WorkerIdentity, classes: set<TaskClass>, locked: set<TaskId>, now: Time,
                      pick: TaskId, other: TaskId)
    requires ClaimRow(cfg, Run(cfg, EMPTY, steps), worker, classes, locked, now, Some(pick))
    requires ClaimCandidate(cfg, Run(cfg, EMPTY, steps), worker, classes, locked, now, other)
    ensures var db := Run(cfg, EMPTY, steps);
            var taken, left := db.tasks[pick], db.tasks[other];
            (left.taskClass.Live? ==> taken.taskClass.Live?)
            && (taken.taskClass.DiscoveryCapture? ==> left.taskClass.DiscoveryCapture?)
            && (taken.taskClass.NetworkRecovery? ==> left.taskClass.NetworkRecovery? || left.taskClass.DiscoveryCapture?)
            && (taken.taskClass == left.taskClass ==> taken.availableAt <= left.availableAt)
  {
    RunRanked(cfg, steps);
    var db := Run(cfg, EMPTY, steps);
    assert pick == other || ClaimBefore(db, pick, other);
  }
}
