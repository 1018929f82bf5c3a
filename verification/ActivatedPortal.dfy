/** The start of several concrete runs: a portal with two registered builds, the first one active, and a listing
    leased for it.  It all happens at the instant of a capture at 00:30 on 1 March 2022, UTC+1. */
module ActivatedPortal {
  import opened Options
  import opened Contracts
  import opened ScrapeQueue
  import opened Coordinator
  import opened ParserReleases
  import Calendar

  ghost const CFG := Config(Timing(60, 20, 600, 90, 5), map[], (t: Time) => 0)

  /** When it all happens: the instant of the capture. */
  const T: Time := Calendar.Instant(Calendar.EASTERN)
  const EXPIRY := T + 60_000_000
  const HEALTH := 90_000_000
  const NAS := WorkerIdentity("n", Gratka, Nas)
  const VPS := WorkerIdentity("v", Gratka, Vps)
  const KEY := LiveKey(Gratka, 7, "u")
  const NEW := Task(Gratka, 7, "u", Live, "a", 1, KEY, Pending, 0, T, T, 0, None, None, None, None, None, false, None)
  const LEASED := NEW.(state := Running, attemptCount := 1, leaseOwner := Some("n"), leaseToken := Some(100),
                       leaseStartedAt := Some(T), leaseExpiresAt := Some(EXPIRY))
  const LEASE := ScrapeLease(1, Gratka, 7, "u", Live, "a", 1, 100, EXPIRY, 1)

  const SETUP: seq<Step> := [
    RegisterReleaseStep("a", Gratka, "p"),
    RegisterReleaseStep("b", Gratka, "q"),
    RegisterWorkerStep(NAS, {"a", "b"}, true, T),
    RegisterWorkerStep(VPS, {"a", "b"}, true, T),
    ChangeStep(Gratka, "a", Activate, None, true, HEALTH, T),
    EnqueueStep(1, Gratka, 7, Some("u"), Live, None, T),
    ClaimStep(NAS, {Live}, {}, Some(1), 100, T, T)]

  /** The activation of the other build. */
  const SWITCH := ChangeStep(Gratka, "b", Activate, Some(1), true, HEALTH, T + 2)

  const FIRST := AttemptKey(1, 1)
  const ATTEMPT := Attempt(100, "n", "a", 1, T, None, None, None, Unassigned, None, 0, None, None, 0)
  const FIRST_AUDIT := Audit(1, None, "a", Activate, T)
  const SECOND_AUDIT := Audit(2, Some("a"), "b", Activate, T + 2)

  /** One reading for a whole transaction. */
  function At(now: Time): Clock { Clock(now, now, now) }

  // ----- the database after each step

  const RELEASES := EMPTY.(releases := map["a" := Release(Gratka, "p", Draft), "b" := Release(Gratka, "q", Draft)])
  const REGISTERED := RELEASES.(
    workers := map["n" := Worker(Gratka, Nas, T, {"a", "b"}, true), "v" := Worker(Gratka, Vps, T, {"a", "b"}, true)])
  const ACTIVE := REGISTERED.(
    releases := map["a" := Release(Gratka, "p", Active), "b" := Release(Gratka, "q", Draft)],
    pointers := map[Gratka := Pointer("a", 1)],
    audits := map[Gratka := [FIRST_AUDIT]])
  const QUEUED := ACTIVE.(tasks := map[1 := NEW])
  const CLAIMED := ACTIVE.(tasks := map[1 := LEASED], attempts := map[FIRST := ATTEMPT], issued := {100}, log := [Claimed(1, 100)])

  /** The portal still runs under the first build. */
  predicate OnFirst(db: Db) {
    db.workers == ACTIVE.workers && db.releases == ACTIVE.releases && db.pointers == ACTIVE.pointers && db.audits == ACTIVE.audits
  }

  /** The same database once the other build is active. */
  function Switched(db: Db): Db {
    db.(releases := map["a" := Release(Gratka, "p", Retired), "b" := Release(Gratka, "q", Active)],
        pointers := map[Gratka := Pointer("b", 2)],
        audits := map[Gratka := [FIRST_AUDIT, SECOND_AUDIT]])
  }

  lemma RegistersReleases()
    ensures Apply(CFG, Apply(CFG, EMPTY, SETUP[0]), SETUP[1]) == RELEASES
  {
    hide T, ApplyLease, ApplyQueue, RegisterWorker, MovePointer, Purge, PurgeRow;
  }

  lemma RegistersWorkers()
    ensures Apply(CFG, Apply(CFG, RELEASES, SETUP[2]), SETUP[3]) == REGISTERED
  {
    hide T, ApplyLease, ApplyQueue, Register, MovePointer, Purge, PurgeRow;
  }

  /** Both deployments run both releases. */
  lemma Covered(db: Db, release: Hash, now: Time)
    requires db.workers == REGISTERED.workers && release in {"a", "b"} && T <= now <= T + 9
    requires Gratka in db.pointers ==> db.pointers[Gratka].releaseHash in {"a", "b"}
    ensures Deployable(db, Gratka, release, HEALTH, now)
  {
    hide T;
    forall h | h in {"a", "b"} ensures h in Capabilities(db, Gratka, Nas, HEALTH, now) && h in Capabilities(db, Gratka, Vps, HEALTH, now) {
      assert "n" in db.workers && h in db.workers["n"].releases;
      assert "v" in db.workers && h in db.workers["v"].releases;
    }
  }

  lemma FirstRows()
    ensures Changed(REGISTERED, Gratka, "a", Activate, T) == ACTIVE
    ensures ChangeAllowed(REGISTERED, Gratka, "a", Activate, None, true, HEALTH, T)
  {
    hide T, Deployable;
    Covered(REGISTERED, "a", T);
    var db := Changed(REGISTERED, Gratka, "a", Activate, T);
    assert db.releases == ACTIVE.releases;
    assert AuditsOf(REGISTERED, Gratka) == [];
    assert db.audits[Gratka] == [FIRST_AUDIT];
    assert db.audits == ACTIVE.audits;
  }

  lemma Activates()
    ensures Apply(CFG, REGISTERED, SETUP[4]) == ACTIVE
  {
    hide T, ApplyLease, ApplyQueue, Changed, ChangeAllowed;
    FirstRows();
  }

  lemma NewTaskQueued()
    ensures Enqueue(ACTIVE, 1, Gratka, 7, Some("u"), Live, None, T).0 == QUEUED
  {
    hide T;
    assert forall other :: !HasKey(ACTIVE, KEY, other);
  }

  lemma Queues()
    ensures Apply(CFG, ACTIVE, SETUP[5]) == QUEUED
  {
    hide T, ApplyLease, ApplyOutside, Enqueue;
    NewTaskQueued();
  }

  lemma PicksOnly()
    ensures ClaimRow(CFG, QUEUED, NAS, {Live}, {}, T, Some(1))
  {
    hide T;
  }

  lemma LeaseTables()
    ensures TakeLease(CFG, QUEUED, NAS, 1, Pointer("a", 1), 100, T) == CLAIMED
  {
    hide T;
  }

  lemma TakesOnly()
    ensures Claim(CFG, QUEUED, NAS, Some(1), 100, T, T).0 == CLAIMED
  {
    hide T, TakeLease, LeaseOf, ClaimedTask;
    LeaseTables();
  }

  lemma Claims1()
    ensures Apply(CFG, QUEUED, SETUP[6]) == CLAIMED
  {
    hide T, ApplyLease, ApplyOutside, Claim, ClaimRow;
    PicksOnly();
    TakesOnly();
  }

  lemma RunSetup()
    ensures Run(CFG, EMPTY, SETUP) == CLAIMED
  {
    hide Apply, Run, T, RELEASES, REGISTERED, ACTIVE, QUEUED, CLAIMED;
    RunNone(CFG, EMPTY, SETUP);
    RegistersReleases();
    RegistersWorkers();
    Activates();
    Queues();
    Claims1();
    RunNext(CFG, EMPTY, SETUP, 0);
    RunNext(CFG, EMPTY, SETUP, 1);
    RunNext(CFG, EMPTY, SETUP, 2);
    RunNext(CFG, EMPTY, SETUP, 3);
    RunNext(CFG, EMPTY, SETUP, 4);
    RunNext(CFG, EMPTY, SETUP, 5);
    RunNext(CFG, EMPTY, SETUP, 6);
    assert SETUP[..7] == SETUP;
  }

  // ----- the second build

  lemma SecondAllowed(db: Db)
    requires OnFirst(db)
    ensures ChangeAllowed(db, Gratka, "b", Activate, Some(1), true, HEALTH, T + 2)
  {
    hide T, Deployable;
    Covered(db, "b", T + 2);
  }

  lemma SecondReleases()
    ensures "b" in ACTIVE.releases
    ensures Withdraw(ACTIVE.releases, Some("a"), "b", Activate)["b" := ACTIVE.releases["b"].(status := Active)]
            == map["a" := Release(Gratka, "p", Retired), "b" := Release(Gratka, "q", Active)]
  {
    hide T;
  }

  lemma SecondAudits(db: Db)
    requires OnFirst(db)
    ensures db.audits[Gratka := AuditsOf(db, Gratka) + [SECOND_AUDIT]] == map[Gratka := [FIRST_AUDIT, SECOND_AUDIT]]
  {
    hide T;
    assert [FIRST_AUDIT] + [SECOND_AUDIT] == [FIRST_AUDIT, SECOND_AUDIT];
  }

  lemma SecondRows(db: Db)
    requires OnFirst(db)
    ensures "b" in db.releases && Changed(db, Gratka, "b", Activate, T + 2) == Switched(db)
  {
    hide T, Withdraw, AuditsOf;
    SecondReleases();
    SecondAudits(db);
  }

  lemma Switches(db: Db)
    requires OnFirst(db)
    ensures Apply(CFG, db, SWITCH) == Switched(db)
  {
    hide T, ApplyLease, ApplyQueue, RegisterWorker, Register, Purge, PurgeRow, Changed, ChangeAllowed, OnFirst, Switched;
    SecondAllowed(db);
    SecondRows(db);
  }

  /** One more step after a run. */
  lemma RunAppend(before: seq<Step>, step: Step)
    ensures Run(CFG, EMPTY, before + [step]) == Apply(CFG, Run(CFG, EMPTY, before), step)
  {
    hide Apply, Run;
    var steps := before + [step];
    RunNext(CFG, EMPTY, steps, |before|);
    assert steps[..|before|] == before && steps[..|before| + 1] == steps;
  }

  lemma RunSwitched()
    ensures Run(CFG, EMPTY, SETUP + [SWITCH]) == Switched(CLAIMED)
  {
    hide Apply, Run, Switched, T;
    RunSetup();
    RunAppend(SETUP, SWITCH);
    Switches(CLAIMED);
  }
}
