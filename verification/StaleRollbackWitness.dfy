/** A concrete run in which a rollback acts on a target that is no longer the current one. */
module StaleRollbackWitness {
  import opened Options
  import opened Contracts
  import opened Coordinator
  import opened ParserReleases
  import opened ActivatedPortal

  /** When the rollback reads its target: the second build has replaced the first. */
  const BEFORE := SETUP + [SWITCH]

  /** What commits before it changes the pointer: the first build comes back. */
  const BACK := ChangeStep(Gratka, "a", Activate, Some(2), true, HEALTH, T + 3)

  const THIRD_AUDIT := Audit(3, Some("b"), "a", Activate, T + 3)

  /** The same database once the first build is active again. */
  function SwitchedBack(db: Db): Db {
    db.(releases := map["a" := Release(Gratka, "p", Active), "b" := Release(Gratka, "q", Retired)],
        pointers := map[Gratka := Pointer("a", 3)],
        audits := map[Gratka := [FIRST_AUDIT, SECOND_AUDIT, THIRD_AUDIT]])
  }

  lemma BackAllowed()
    ensures ChangeAllowed(Switched(CLAIMED), Gratka, "a", Activate, Some(2), true, HEALTH, T + 3)
  {
    hide T, Deployable;
    Covered(Switched(CLAIMED), "a", T + 3);
  }

  lemma BackReleases()
    ensures var releases := Switched(CLAIMED).releases;
            "a" in releases
            && Withdraw(releases, Some("b"), "a", Activate)["a" := releases["a"].(status := Active)]
               == map["a" := Release(Gratka, "p", Active), "b" := Release(Gratka, "q", Retired)]
  {
    hide T;
  }

  lemma BackAudits()
    ensures var db := Switched(CLAIMED);
            db.audits[Gratka := AuditsOf(db, Gratka) + [THIRD_AUDIT]] == map[Gratka := [FIRST_AUDIT, SECOND_AUDIT, THIRD_AUDIT]]
  {
    hide T;
    assert [FIRST_AUDIT, SECOND_AUDIT] + [THIRD_AUDIT] == [FIRST_AUDIT, SECOND_AUDIT, THIRD_AUDIT];
  }

  lemma BackRows()
    ensures "a" in Switched(CLAIMED).releases
    ensures Changed(Switched(CLAIMED), Gratka, "a", Activate, T + 3) == SwitchedBack(CLAIMED)
  {
    hide T, Withdraw, AuditsOf;
    BackReleases();
    BackAudits();
  }

  lemma RunBack()
    ensures Run(CFG, Run(CFG, EMPTY, BEFORE), [BACK]) == SwitchedBack(CLAIMED)
  {
    hide T, Apply, Run, Switched, SwitchedBack, CLAIMED;
    RunSwitched();
    RunNone(CFG, Switched(CLAIMED), [BACK]);
    RunNext(CFG, Switched(CLAIMED), [BACK], 0);
    assert [BACK][..1] == [BACK];
    BackStep();
  }

  lemma BackStep()
    ensures Apply(CFG, Switched(CLAIMED), BACK) == SwitchedBack(CLAIMED)
  {
    hide T, ApplyLease, ApplyQueue, Changed, ChangeAllowed, Switched, SwitchedBack;
    BackAllowed();
    BackRows();
  }

  lemma Targets()
    ensures RollbackTarget(Switched(CLAIMED), Gratka) == Some("a")
    ensures RollbackTarget(SwitchedBack(CLAIMED), Gratka) == Some("b")
  {
    hide T;
    assert RollbackSource(Switched(CLAIMED), Gratka, 1);
    assert RollbackSource(SwitchedBack(CLAIMED), Gratka, 2);
  }

  lemma Accepted()
    ensures var (db', reply) := MovePointer(SwitchedBack(CLAIMED), Gratka, "a", Rollback, Some(3), false, HEALTH, T + 4);
            reply.Ok? && CurrentRelease(db', Gratka) == Some("a") && db'.releases == SwitchedBack(CLAIMED).releases
  {
    hide T, Deployable;
    Covered(SwitchedBack(CLAIMED), "a", T + 4);
  }

  /** The rollback has read "a"; by now "a" is the release in use and "b" its predecessor.  Naming the epoch reached
      by now, it goes through all the same, and leaves the release in use that it was meant to withdraw. */
  lemma StaleTargetIsTaken()
    ensures var read := Run(CFG, EMPTY, BEFORE);
            var db := Run(CFG, read, [BACK]);
            var (db', reply) := MovePointer(db, Gratka, "a", Rollback, Some(3), false, HEALTH, T + 4);
            RollbackTarget(read, Gratka) == Some("a") && RollbackTarget(db, Gratka) == Some("b")
            && CurrentRelease(db, Gratka) == Some("a")
            && reply.Ok? && CurrentRelease(db', Gratka) == Some("a") && db'.releases == db.releases
  {
    hide T, Run, RollbackTarget, MovePointer, CLAIMED;
    RunSwitched();
    RunBack();
    Targets();
    Accepted();
  }
}
