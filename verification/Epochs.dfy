/** Epochs, revocation and the audit chain over whole runs. */
module Epochs {
  import opened Options
  import opened Contracts
  import opened ScrapeQueue
  import opened SourceBudget
  import opened Coordinator
  import opened Fencing
  import opened Changes
  import opened Frames
  import opened Fence
  import opened LeaseLife
  import opened ParserReleases

  // ----- the invariant

  /** Audit `i` has epoch `i + 1` and names the release of the audit before it. */
  predicate Chained(audits: seq<Audit>) {
    forall i :: 0 <= i < |audits| ==> audits[i].epoch == i + 1 && audits[i].previous == ReleaseBefore(audits, i)
  }

  function ReleaseBefore(audits: seq<Audit>, i: int): Option<Hash>
    requires i <= |audits|
  {
    if i <= 0 then None else Some(audits[i - 1].releaseHash)
  }

  function Last(audits: seq<Audit>): Pointer
    requires audits != []
  {
    Pointer(audits[|audits| - 1].releaseHash, |audits|)
  }

  predicate IsRevoked(db: Db, hash: Hash) {
    hash in db.releases && db.releases[hash].status.Revoked?
  }

  predicate OwnedBy(db: Db, hash: Hash, source: Portal) {
    hash in db.releases && db.releases[hash].source == source
  }

  predicate BuiltFrom(db: Db, hash: Hash, source: Portal, provenance: string) {
    hash in db.releases && db.releases[hash].source == source && db.releases[hash].provenance == provenance
  }

  predicate PortalSound(db: Db, source: Portal) {
    var audits := AuditsOf(db, source);
    Chained(audits)
    && (source in db.pointers <==> audits != [])
    && (audits != [] ==> db.pointers[source] == Last(audits))
    && Owned(db, audits, source) && Withdrawn(db, audits)
  }

  predicate Owned(db: Db, audits: seq<Audit>, source: Portal) {
    forall i :: 0 <= i < |audits| ==> OwnedBy(db, audits[i].releaseHash, source)
  }

  /** A rollback onto another release revoked the one it replaced. */
  predicate Withdrawn(db: Db, audits: seq<Audit>) {
    forall i :: 0 <= i < |audits| && audits[i].action.Rollback? ==>
      ReleaseBefore(audits, i) in {None, Some(audits[i].releaseHash)} || IsRevoked(db, ReleaseBefore(audits, i).value)
  }

  predicate StatusSound(db: Db, hash: Hash)
    requires hash in db.releases
  {
    var r := db.releases[hash];
    r.status.Active? <==> r.source in db.pointers && db.pointers[r.source].releaseHash == hash
  }

  ghost predicate ReleasesSound(db: Db) {
    (forall source :: PortalSound(db, source))
    && (forall hash :: hash in db.releases ==> StatusSound(db, hash))
  }

  /** What no later step undoes: audits only grow, releases stay registered to their portal, revocation holds. */
  ghost predicate ReleasesAdvance(db: Db, db': Db) {
    (forall source :: AuditsOf(db, source) <= AuditsOf(db', source))
    && (forall hash, source :: OwnedBy(db, hash, source) ==> OwnedBy(db', hash, source))
    && (forall hash :: IsRevoked(db, hash) ==> IsRevoked(db', hash))
    && (forall hash, source, provenance :: BuiltFrom(db, hash, source, provenance) ==> BuiltFrom(db', hash, source, provenance))
  }

  // ----- preservation

  lemma SameReleasesSound(db: Db, db': Db)
    requires ReleasesSound(db) && SameReleases(db, db')
    ensures ReleasesSound(db') && ReleasesAdvance(db, db')
  {
    forall source ensures PortalSound(db', source) && AuditsOf(db', source) == AuditsOf(db, source) {
      assert PortalSound(db, source);
    }
    forall hash | hash in db'.releases ensures StatusSound(db', hash) {
      assert StatusSound(db, hash);
    }
  }

  lemma AddedSound(db: Db, hash: Hash, row: Release)
    requires ReleasesSound(db) && hash !in db.releases && row.status.Draft?
    ensures var db' := AddRelease(db, hash, row); ReleasesSound(db') && ReleasesAdvance(db, db')
  {
    hide Chained;
    var db' := AddRelease(db, hash, row);
    forall source ensures PortalSound(db', source) && AuditsOf(db', source) == AuditsOf(db, source) {
      assert PortalSound(db, source);
    }
    forall h | h in db'.releases ensures StatusSound(db', h) {
      if h in db.releases {
        assert StatusSound(db, h);
      } else {
        assert PortalSound(db, row.source);
      }
    }
  }

  /** The releases after a pointer change, one hash at a time. */
  lemma StatusAfter(db: Db, source: Portal, release: Hash, action: ChangeAction, now: Time, hash: Hash)
    requires release in db.releases
    ensures var db' := Changed(db, source, release, action, now);
            (hash in db'.releases <==> hash in db.releases)
            && (hash in db.releases ==>
                  db'.releases[hash].source == db.releases[hash].source
                  && db'.releases[hash].provenance == db.releases[hash].provenance
                  && db'.releases[hash].status ==
                       if hash == release then Active
                       else if CurrentRelease(db, source) == Some(hash) then (if action.Rollback? then Revoked else Retired)
                       else db.releases[hash].status)
  {
  }

  lemma ChainAppend(audits: seq<Audit>, next: Audit)
    requires Chained(audits) && next.epoch == |audits| + 1 && next.previous == ReleaseBefore(audits, |audits|)
    ensures Chained(audits + [next])
  {
    var longer := audits + [next];
    forall i | 0 <= i < |longer| ensures longer[i].epoch == i + 1 && longer[i].previous == ReleaseBefore(longer, i) {
      if i < |audits| {
        assert longer[i] == audits[i];
      }
      assert ReleaseBefore(longer, i) == ReleaseBefore(audits, i);
    }
  }

  lemma ChangedPointers(db: Db, source: Portal, release: Hash, action: ChangeAction, now: Time)
    requires release in db.releases
    ensures Changed(db, source, release, action, now).pointers == db.pointers[source := Pointer(release, CurrentEpoch(db, source) + 1)]
  {
    hide Withdraw, AuditsOf;
  }

  lemma SoundStatus(db: Db, hash: Hash)
    requires ReleasesSound(db) && hash in db.releases
    ensures StatusSound(db, hash)
  {
  }

  lemma PointedIsActive(db: Db, source: Portal)
    requires ReleasesSound(db) && source in db.pointers
    ensures OwnedBy(db, db.pointers[source].releaseHash, source) && db.releases[db.pointers[source].releaseHash].status.Active?
  {
    assert PortalSound(db, source);
    var audits := AuditsOf(db, source);
    assert OwnedBy(db, audits[|audits| - 1].releaseHash, source);
    assert StatusSound(db, db.pointers[source].releaseHash);
  }

  lemma MovedPortal(db: Db, source: Portal, release: Hash, action: ChangeAction, now: Time, portal: Portal)
    requires ReleasesSound(db) && release in db.releases && OwnedBy(db, release, source) && !IsRevoked(db, release)
    ensures var db' := Changed(db, source, release, action, now);
            AuditsOf(db, portal) <= AuditsOf(db', portal) && PortalSound(db', portal)
  {
    hide Changed, ReleasesSound, StatusSound, OwnedBy, IsRevoked, AuditsOf, Chained, Owned, Withdrawn;
    var db' := Changed(db, source, release, action, now);
    SoundPortal(db, portal);
    forall hash | OwnedBy(db, hash, portal) ensures OwnedBy(db', hash, portal) {
      MovedRelease(db, source, release, action, now, hash);
    }
    forall hash | IsRevoked(db, hash) ensures IsRevoked(db', hash) {
      MovedRelease(db, source, release, action, now, hash);
    }
    ChangedPointers(db, source, release, action, now);
    ChangedAudits(db, source, release, action, now);
    if portal == source {
      MovedOwner(db, source, release, action, now);
      var audits := AuditsOf(db, portal);
      AppendSound(db, db', audits, Audit(CurrentEpoch(db, source) + 1, CurrentRelease(db, source), release, action, now), source);
    } else {
      AuditsKept(db, db', AuditsOf(db, portal), portal);
    }
  }

  lemma AuditsKept(db: Db, db': Db, audits: seq<Audit>, source: Portal)
    requires Owned(db, audits, source) && Withdrawn(db, audits)
    requires forall hash :: OwnedBy(db, hash, source) ==> OwnedBy(db', hash, source)
    requires forall hash :: IsRevoked(db, hash) ==> IsRevoked(db', hash)
    ensures Owned(db', audits, source) && Withdrawn(db', audits)
  {
    hide OwnedBy, IsRevoked;
  }

  lemma AppendSound(db: Db, db': Db, audits: seq<Audit>, next: Audit, source: Portal)
    requires Owned(db, audits, source) && Withdrawn(db, audits) && Chained(audits)
    requires forall hash :: OwnedBy(db, hash, source) ==> OwnedBy(db', hash, source)
    requires forall hash :: IsRevoked(db, hash) ==> IsRevoked(db', hash)
    requires next.epoch == |audits| + 1 && next.previous == ReleaseBefore(audits, |audits|) && OwnedBy(db', next.releaseHash, source)
    requires next.action.Rollback? ==> next.previous in {None, Some(next.releaseHash)} || IsRevoked(db', next.previous.value)
    ensures var longer := audits + [next]; Chained(longer) && Owned(db', longer, source) && Withdrawn(db', longer)
  {
    hide OwnedBy, IsRevoked, Chained;
    ChainAppend(audits, next);
    var longer := audits + [next];
    AuditsKept(db, db', audits, source);
    forall i | 0 <= i < |longer| && longer[i].action.Rollback?
      ensures ReleaseBefore(longer, i) in {None, Some(longer[i].releaseHash)} || IsRevoked(db', ReleaseBefore(longer, i).value)
    {
      assert ReleaseBefore(longer, i) == ReleaseBefore(audits, i);
      if i < |audits| {
        assert longer[i] == audits[i];
      }
    }
    forall i | 0 <= i < |longer| ensures OwnedBy(db', longer[i].releaseHash, source) {
      if i < |audits| {
        assert longer[i] == audits[i];
      }
    }
  }

  lemma SoundPortal(db: Db, source: Portal)
    requires ReleasesSound(db)
    ensures PortalSound(db, source)
  {
  }

  lemma ChangedAudits(db: Db, source: Portal, release: Hash, action: ChangeAction, now: Time)
    requires release in db.releases
    ensures var db' := Changed(db, source, release, action, now);
            AuditsOf(db', source) == AuditsOf(db, source) + [Audit(CurrentEpoch(db, source) + 1, CurrentRelease(db, source), release, action, now)]
            && forall portal :: portal != source ==> AuditsOf(db', portal) == AuditsOf(db, portal)
  {
    hide Withdraw, CurrentEpoch, CurrentRelease;
  }

  /** The new release belongs to the portal, and a rollback revokes the one it replaces. */
  lemma MovedOwner(db: Db, source: Portal, release: Hash, action: ChangeAction, now: Time)
    requires ReleasesSound(db) && release in db.releases && OwnedBy(db, release, source) && !IsRevoked(db, release)
    ensures var db' := Changed(db, source, release, action, now);
            OwnedBy(db', release, source)
            && (action.Rollback? && source in db.pointers && db.pointers[source].releaseHash != release ==>
                  IsRevoked(db', db.pointers[source].releaseHash))
  {
    hide Changed, ReleasesSound, AuditsOf;
    StatusAfter(db, source, release, action, now, release);
    if source in db.pointers {
      PointedIsActive(db, source);
      StatusAfter(db, source, release, action, now, db.pointers[source].releaseHash);
    }
  }

  lemma MovedRelease(db: Db, source: Portal, release: Hash, action: ChangeAction, now: Time, hash: Hash)
    requires ReleasesSound(db) && release in db.releases && OwnedBy(db, release, source) && !IsRevoked(db, release)
    ensures var db' := Changed(db, source, release, action, now);
            (forall portal :: OwnedBy(db, hash, portal) ==> OwnedBy(db', hash, portal)) && (IsRevoked(db, hash) ==> IsRevoked(db', hash))
    ensures hash in Changed(db, source, release, action, now).releases ==> StatusSound(Changed(db, source, release, action, now), hash)
    ensures forall portal, provenance ::
              BuiltFrom(db, hash, portal, provenance) ==> BuiltFrom(Changed(db, source, release, action, now), hash, portal, provenance)
  {
    hide Changed, ReleasesSound, PortalSound, AuditsOf;
    if source in db.pointers {
      PointedIsActive(db, source);
    }
    ChangedPointers(db, source, release, action, now);
    StatusAfter(db, source, release, action, now, hash);
    if hash in db.releases {
      SoundStatus(db, hash);
    }
  }

  lemma MovedSound(db: Db, source: Portal, release: Hash, action: ChangeAction, now: Time)
    requires ReleasesSound(db) && release in db.releases && OwnedBy(db, release, source) && !IsRevoked(db, release)
    ensures var db' := Changed(db, source, release, action, now); ReleasesSound(db') && ReleasesAdvance(db, db')
  {
    hide Changed, PortalSound, StatusSound, AuditsOf, OwnedBy, IsRevoked, BuiltFrom;
    var db' := Changed(db, source, release, action, now);
    forall portal
      ensures AuditsOf(db, portal) <= AuditsOf(db', portal) && PortalSound(db', portal)
    {
      MovedPortal(db, source, release, action, now, portal);
    }
    forall hash, portal | OwnedBy(db, hash, portal) ensures OwnedBy(db', hash, portal) {
      MovedRelease(db, source, release, action, now, hash);
    }
    forall hash, portal, provenance | BuiltFrom(db, hash, portal, provenance) ensures BuiltFrom(db', hash, portal, provenance) {
      MovedRelease(db, source, release, action, now, hash);
    }
    forall hash
      ensures IsRevoked(db, hash) ==> IsRevoked(db', hash)
      ensures hash in db'.releases ==> StatusSound(db', hash)
    {
      MovedRelease(db, source, release, action, now, hash);
    }
  }

  lemma ChangeReleases(cfg: Config, db: Db, c: Change)
    requires ReleasesSound(db) && Permitted(cfg, db, c)
    ensures ReleasesSound(Commit(cfg, db, c)) && ReleasesAdvance(db, Commit(cfg, db, c))
  {
    hide QueuePermitted, QueueCommit, LeasePermitted, LeaseCommit, EndPermitted, EndCommit, BudgetPermitted, BudgetCommit,
         ReleasesSound, ReleasesAdvance, Changed, AddRelease;
    if Releasing(c) {
      match c
      case ReleaseAdded(hash, row) => AddedSound(db, hash, row);
      case PointerMoved(source, hash, action, now) => MovedSound(db, source, hash, action, now);
    } else {
      ReleasesUntouched(cfg, db, c);
    }
  }

  lemma ReleasesUntouched(cfg: Config, db: Db, c: Change)
    requires ReleasesSound(db) && Permitted(cfg, db, c) && !Releasing(c)
    ensures ReleasesSound(Commit(cfg, db, c)) && ReleasesAdvance(db, Commit(cfg, db, c))
  {
    hide ReleasesSound, ReleasesAdvance, Permitted, Commit;
    ReleasesKept(cfg, db, c);
    SameReleasesSound(db, Commit(cfg, db, c));
  }

  lemma AdvanceTransitive(db: Db, mid: Db, db': Db)
    requires ReleasesAdvance(db, mid) && ReleasesAdvance(mid, db')
    ensures ReleasesAdvance(db, db')
  {
    hide AuditsOf, OwnedBy, IsRevoked, BuiltFrom;
    forall source ensures AuditsOf(db, source) <= AuditsOf(db', source) {
      assert AuditsOf(db, source) <= AuditsOf(mid, source) <= AuditsOf(db', source);
    }
  }

  lemma AdvanceReflexive(db: Db)
    ensures ReleasesAdvance(db, db)
  {
  }

  lemma {:induction false} RunReleases(cfg: Config, db: Db, steps: seq<Step>)
    requires Fenced(db) && ReleasesSound(db)
    ensures var db' := Run(cfg, db, steps); Fenced(db') && ReleasesSound(db') && ReleasesAdvance(db, db')
    decreases |steps|
  {
    hide Fenced, ReleasesSound, ReleasesAdvance, Apply, Permitted, Commit;
    if steps == [] {
      AdvanceReflexive(db);
    } else {
      var n := |steps| - 1;
      RunReleases(cfg, db, steps[..n]);
      var mid := Run(cfg, db, steps[..n]);
      var c := StepCommits(cfg, mid, steps[n]);
      ChangeReleases(cfg, mid, c);
      ChangeFenced(cfg, mid, c);
      AdvanceTransitive(db, mid, Commit(cfg, mid, c));
    }
  }

  lemma EmptyReleases()
    ensures ReleasesSound(EMPTY)
  {
  }

  // ----- over whole runs

  /** In every reachable database, for every portal: the audits are the gap-free epochs 1..e, each naming
      its predecessor's release; the pointer is the last audit; and of the registered releases exactly the
      pointed ones are active.  Every rollback onto another release left the old one revoked. */
  lemma AuditChain(cfg: Config, steps: seq<Step>, source: Portal)
    ensures var db := Run(cfg, EMPTY, steps);
            var audits := AuditsOf(db, source);
            Chained(audits)
            && (source in db.pointers <==> audits != [])
            && (audits != [] ==> db.pointers[source] == Last(audits))
            && Withdrawn(db, audits)
            && (forall hash :: OwnedBy(db, hash, source) ==>
                  (db.releases[hash].status.Active? <==> audits != [] && Last(audits).releaseHash == hash))
  {
    hide Fenced, Apply, Chained, Withdrawn, Owned;
    EmptyFenced();
    EmptyReleases();
    RunReleases(cfg, EMPTY, steps);
    var db := Run(cfg, EMPTY, steps);
    assert PortalSound(db, source);
    forall hash | OwnedBy(db, hash, source)
      ensures db.releases[hash].status.Active? <==> source in db.pointers && db.pointers[source].releaseHash == hash
    {
      assert StatusSound(db, hash);
    }
  }

  /** Epochs never go back, and a pointer stays as it is exactly while its epoch does. */
  lemma EpochsIncrease(cfg: Config, before: seq<Step>, after: seq<Step>, source: Portal)
    ensures var db := Run(cfg, EMPTY, before);
            var later := Run(cfg, db, after);
            CurrentEpoch(db, source) <= CurrentEpoch(later, source)
            && (CurrentEpoch(db, source) == CurrentEpoch(later, source) ==>
                  AuditsOf(later, source) == AuditsOf(db, source) && CurrentRelease(later, source) == CurrentRelease(db, source))
  {
    hide Fenced, Apply;
    EmptyFenced();
    EmptyReleases();
    RunReleases(cfg, EMPTY, before);
    var db := Run(cfg, EMPTY, before);
    RunReleases(cfg, db, after);
    assert PortalSound(db, source) && PortalSound(Run(cfg, db, after), source);
  }

  /** A worker of the portal and deployment says it is healthy, was seen within the health period, and runs the build. */
  ghost predicate Runnable(db: Db, source: Portal, deployment: Deployment, hash: Hash, health: int, now: Time) {
    exists w :: w in db.workers
                && db.workers[w].source == source && db.workers[w].deployment == deployment && db.workers[w].healthy
                && now - db.workers[w].heartbeatAt < health && hash in db.workers[w].releases
  }

  lemma CapableExactly(db: Db, source: Portal, deployment: Deployment, hash: Hash, health: int, now: Time)
    ensures hash in Capabilities(db, source, deployment, health, now) <==> Runnable(db, source, deployment, hash, health, now)
  {
  }

  /** A pointer change is accepted exactly if its expected epoch is the current one, the release is one of the portal that
      is not revoked, an activation has its verdict, and workers of both deployments run the release as well as the one
      it replaces.  Otherwise it changes nothing. */
  lemma ChangeAcceptedExactly(db: Db, source: Portal, hash: Hash, action: ChangeAction, expected: Option<int>, eligible: bool,
                              health: int, now: Time)
    ensures var (db', reply) := MovePointer(db, source, hash, action, expected, eligible, health, now);
            (reply.Ok? <==>
               (expected.Some? ==> expected.value == if source in db.pointers then db.pointers[source].epoch else 0)
               && hash in db.releases && db.releases[hash].source == source && db.releases[hash].status != Revoked
               && (action == Activate ==> eligible)
               && forall deployment: Deployment ::
                    Runnable(db, source, deployment, hash, health, now)
                    && (source in db.pointers ==> Runnable(db, source, deployment, db.pointers[source].releaseHash, health, now)))
            && (!reply.Ok? ==> db' == db)
            && (reply.Ok? ==> reply.value == 1 + if source in db.pointers then db.pointers[source].epoch else 0)
  {
    hide Changed, Runnable, Deployable;
    CoverExactly(db, source, hash, health, now);
  }

  lemma CoverExactly(db: Db, source: Portal, hash: Hash, health: int, now: Time)
    ensures Deployable(db, source, hash, health, now) <==>
              forall deployment: Deployment ::
                Runnable(db, source, deployment, hash, health, now)
                && (source in db.pointers ==> Runnable(db, source, deployment, db.pointers[source].releaseHash, health, now))
  {
    hide Runnable, Capabilities;
    forall deployment: Deployment, h: Hash
      ensures h in Capabilities(db, source, deployment, health, now) <==> Runnable(db, source, deployment, h, health, now)
    {
      CapableExactly(db, source, deployment, h, health, now);
    }
    if Deployable(db, source, hash, health, now) {
      forall deployment: Deployment
        ensures Runnable(db, source, deployment, hash, health, now)
        ensures source in db.pointers ==> Runnable(db, source, deployment, db.pointers[source].releaseHash, health, now)
      {
        match deployment
        case Nas =>
        case Vps =>
      }
    } else {
      assert !(Runnable(db, source, Nas, hash, health, now) && Runnable(db, source, Vps, hash, health, now)
               && (source in db.pointers ==> Runnable(db, source, Nas, db.pointers[source].releaseHash, health, now)
                                             && Runnable(db, source, Vps, db.pointers[source].releaseHash, health, now)));
    }
  }

  /** Registration is permanent.  Once a build is registered, then in every continuation registering its hash again
      changes nothing, and succeeds exactly for the same portal and provenance. */
  lemma RegistrationIsPermanent(cfg: Config, before: seq<Step>, hash: Hash, source: Portal, provenance: string, after: seq<Step>,
                                source2: Portal, provenance2: string)
    requires Register(Run(cfg, EMPTY, before), hash, source, provenance).1.Ok?
    ensures var db := Run(cfg, Register(Run(cfg, EMPTY, before), hash, source, provenance).0, after);
            Register(db, hash, source2, provenance2).0 == db
            && (Register(db, hash, source2, provenance2).1.Ok? <==> source2 == source && provenance2 == provenance)
  {
    hide Fenced, ReleasesSound, Apply, Run;
    EmptyFenced();
    EmptyReleases();
    RunReleases(cfg, EMPTY, before);
    var db0 := Run(cfg, EMPTY, before);
    RegisterSound(cfg, db0, hash, source, provenance);
    var db1 := Register(db0, hash, source, provenance).0;
    RunReleases(cfg, db1, after);
    assert BuiltFrom(Run(cfg, db1, after), hash, source, provenance);
  }

  lemma RegisterSound(cfg: Config, db: Db, hash: Hash, source: Portal, provenance: string)
    requires Fenced(db) && ReleasesSound(db)
    ensures var (db', reply) := Register(db, hash, source, provenance);
            Fenced(db') && ReleasesSound(db') && (reply.Ok? ==> BuiltFrom(db', hash, source, provenance))
  {
    hide Fenced, ReleasesSound, ReleasesAdvance, Permitted, Commit, Advances;
    var c := RegisterChange(cfg, db, hash, source, provenance);
    ChangeFenced(cfg, db, c);
    ChangeReleases(cfg, db, c);
  }

  /** Withdrawing `bad` from a portal: the rollback that replaces it by another release. */
  ghost predicate RollsBack(db: Db, source: Portal, bad: Hash, good: Hash, expected: Option<int>, eligible: bool, health: int, now: Time) {
    CurrentRelease(db, source) == Some(bad) && good != bad
    && MovePointer(db, source, good, Rollback, expected, eligible, health, now).1.Ok?
  }

  lemma RollbackRevokes(db: Db, source: Portal, bad: Hash, good: Hash, expected: Option<int>, eligible: bool, health: int, now: Time)
    requires ReleasesSound(db) && RollsBack(db, source, bad, good, expected, eligible, health, now)
    ensures var db' := MovePointer(db, source, good, Rollback, expected, eligible, health, now).0;
            IsRevoked(db', bad) && ReleasesSound(db') && AuditsOf(db', source) != []
            && CurrentEpoch(db', source) == CurrentEpoch(db, source) + 1
            && var last := AuditsOf(db', source)[|AuditsOf(db', source)| - 1];
               last.releaseHash == good && last.previous == Some(bad)
  {
    hide Withdraw, Deployable;
    assert PortalSound(db, source);
    StatusAfter(db, source, good, Rollback, now, bad);
    MovedSound(db, source, good, Rollback, now);
  }

  /** After a rollback that changes the release, the withdrawn one is revoked for good: no later
      interleaving points the portal at it again, every change to it is rejected, none of its results is
      served, and until the pointer moves on a second rollback aims at it and is rejected. */
  lemma WithdrawnNeverReturns(cfg: Config, before: seq<Step>, source: Portal, bad: Hash, good: Hash, expected: Option<int>,
                              eligible: bool, health: int, now: Time, after: seq<Step>)
    requires RollsBack(Run(cfg, EMPTY, before), source, bad, good, expected, eligible, health, now)
    ensures var rolled := MovePointer(Run(cfg, EMPTY, before), source, good, Rollback, expected, eligible, health, now).0;
            var db := Run(cfg, rolled, after);
            IsRevoked(db, bad) && CurrentRelease(db, source) != Some(bad)
            && (forall portal, action, x, e, h, at :: MovePointer(db, portal, bad, action, x, e, h, at) == (db, Rejected))
            && (forall portal, snapshot, at, id :: id in db.results && db.results[id].releaseHash == bad ==>
                  !Servable(db, portal, snapshot, at, id))
            && (CurrentEpoch(db, source) == CurrentEpoch(rolled, source) ==> RollbackTarget(db, source) == Some(bad))
  {
    hide Fenced, ReleasesSound, ReleasesAdvance, Apply, Changed, Deployable, CurrentEpoch, AuditsOf, MovePointer;
    EmptyFenced();
    EmptyReleases();
    RunReleases(cfg, EMPTY, before);
    var db0 := Run(cfg, EMPTY, before);
    RollbackRevokes(db0, source, bad, good, expected, eligible, health, now);
    var rolled := MovePointer(db0, source, good, Rollback, expected, eligible, health, now).0;
    ChangeStepFenced(cfg, db0, source, good, expected, eligible, health, now);
    RunReleases(cfg, rolled, after);
    var db := Run(cfg, rolled, after);
    StaysRevoked(rolled, db, bad);
    RevokedFacts(db, source, bad);
    if CurrentEpoch(db, source) == CurrentEpoch(rolled, source) {
      SameAudits(rolled, db, source);
      TargetIsPredecessor(db, source);
    }
  }

  /** `rollback` reads its target in one transaction and changes the pointer in another.  Whatever commits in between,
      a rollback that goes through names at least the epoch of its reading.  It acts on the activations it has read
      exactly if it names that very epoch, and then its target is still the current one. */
  lemma RollbackActsOnItsReading(cfg: Config, before: seq<Step>, between: seq<Step>, source: Portal, target: Hash, expected: int,
                                 eligible: bool, health: int, now: Time)
    requires RollbackTarget(Run(cfg, EMPTY, before), source) == Some(target)
    requires MovePointer(Run(cfg, Run(cfg, EMPTY, before), between), source, target, Rollback, Some(expected), eligible, health, now).1.Ok?
    ensures var read := Run(cfg, EMPTY, before);
            var db := Run(cfg, read, between);
            CurrentEpoch(read, source) <= expected
            && (AuditsOf(db, source) == AuditsOf(read, source) <==> expected == CurrentEpoch(read, source))
            && (expected == CurrentEpoch(read, source) ==> RollbackTarget(db, source) == Some(target))
  {
    hide Fenced, Apply, Run, Deployable, LatestPrevious;
    var read := Run(cfg, EMPTY, before);
    var db := Run(cfg, read, between);
    EpochsIncrease(cfg, before, between, source);
    EpochIsLength(cfg, before, source);
    EpochIsLength(cfg, before + between, source);
    RunConcat(cfg, EMPTY, before, between);
    if expected == CurrentEpoch(read, source) {
      SameTarget(read, db, source, |AuditsOf(read, source)|);
    }
  }

  /** The epoch counts the activations. */
  lemma EpochIsLength(cfg: Config, steps: seq<Step>, source: Portal)
    ensures var db := Run(cfg, EMPTY, steps); CurrentEpoch(db, source) == |AuditsOf(db, source)|
  {
    hide Fenced, Apply, Run, Withdrawn, OwnedBy;
    AuditChain(cfg, steps, source);
  }

  lemma {:induction false} SameTarget(db: Db, db': Db, source: Portal, n: int)
    requires AuditsOf(db', source) == AuditsOf(db, source) && CurrentRelease(db', source) == CurrentRelease(db, source)
    requires n <= |AuditsOf(db, source)|
    ensures LatestPrevious(db', source, n) == LatestPrevious(db, source, n)
    decreases n
  {
    if n > 0 {
      SameTarget(db, db', source, n - 1);
    }
  }

  lemma ChangeStepFenced(cfg: Config, db: Db, source: Portal, good: Hash, expected: Option<int>, eligible: bool, health: int, now: Time)
    requires Fenced(db)
    ensures Fenced(MovePointer(db, source, good, Rollback, expected, eligible, health, now).0)
  {
    hide Fenced, Permitted, Commit, Advances, MovePointer;
    var c := PointerChange(cfg, db, source, good, Rollback, expected, eligible, health, now);
    ChangeFenced(cfg, db, c);
  }

  lemma StaysRevoked(db: Db, db': Db, hash: Hash)
    requires ReleasesAdvance(db, db') && IsRevoked(db, hash)
    ensures IsRevoked(db', hash)
  {
  }

  lemma RevokedFacts(db: Db, source: Portal, hash: Hash)
    requires ReleasesSound(db) && IsRevoked(db, hash)
    ensures CurrentRelease(db, source) != Some(hash)
    ensures forall portal, action, x, e, h, at :: MovePointer(db, portal, hash, action, x, e, h, at) == (db, Rejected)
    ensures forall portal, snapshot, at, id :: id in db.results && db.results[id].releaseHash == hash ==>
              !Servable(db, portal, snapshot, at, id)
  {
    hide Deployable;
    assert PortalSound(db, source);
    assert StatusSound(db, hash);
    assert CurrentRelease(db, source) == Some(hash) ==> OwnedBy(db, hash, source);
  }

  lemma SameAudits(db: Db, db': Db, source: Portal)
    requires ReleasesSound(db) && ReleasesSound(db') && ReleasesAdvance(db, db') && CurrentEpoch(db, source) == CurrentEpoch(db', source)
    ensures AuditsOf(db', source) == AuditsOf(db, source)
  {
    assert PortalSound(db, source) && PortalSound(db', source);
    assert AuditsOf(db, source) <= AuditsOf(db', source);
  }

  /** A rollback aims at what the newest audit replaced, if it replaced anything. */
  lemma TargetIsPredecessor(db: Db, source: Portal)
    requires ReleasesSound(db) && AuditsOf(db, source) != []
    requires AuditsOf(db, source)[|AuditsOf(db, source)| - 1].previous.Some?
    ensures RollbackTarget(db, source) == AuditsOf(db, source)[|AuditsOf(db, source)| - 1].previous
  {
    assert PortalSound(db, source);
    assert RollbackSource(db, source, |AuditsOf(db, source)| - 1);
  }

  // ----- the pointer fences old leases

  /** The lease names a task that is not a discovery capture, under an epoch the portal has left. */
  predicate StaleEpoch(db: Db, worker: WorkerIdentity, lease: ScrapeLease) {
    lease.taskId in db.tasks && !db.tasks[lease.taskId].taskClass.DiscoveryCapture?
    && lease.activationEpoch < CurrentEpoch(db, worker.source)
  }

  lemma StaleLease(db: Db, worker: WorkerIdentity, lease: ScrapeLease, clock: Clock)
    requires StaleEpoch(db, worker, lease)
    ensures !Leased(db, worker, lease, clock) && !Admitted(db, worker, lease, clock.now)
  {
  }

  /** Under a stale epoch only a redirect handoff can still change anything. */
  lemma StaleLeaseChangesNothing(cfg: Config, db: Db, step: Step)
    requires LeaseStep(step) && !step.HandoffStep? && StaleEpoch(db, step.worker, step.lease)
    ensures Apply(cfg, db, step) == db
  {
    hide ApplyOutside, ApplyQueue, Leased, Admitted, AttemptOf, StaleEpoch;
    match step
    case HeartbeatStep(worker, lease, clock) => StaleLease(db, worker, lease, clock);
    case SucceedStep(worker, lease, code, bytes, clock) => StaleLease(db, worker, lease, clock);
    case FailStep(worker, lease, code, clock) => StaleLease(db, worker, lease, clock);
    case DeferStep(worker, lease, code, availableAt, clock) => StaleLease(db, worker, lease, clock);
    case CompleteStep(worker, lease, outcome, clock) => StaleLease(db, worker, lease, clock);
    case CompleteReplayStep(worker, lease, captureId, releaseHash, content, missing, clock) => StaleLease(db, worker, lease, clock);
    case ReserveStep(worker, lease, requested, now) => StaleLease(db, worker, lease, Clock(now, now, now));
    case OutcomeStep(worker, lease, permit, c, bytes, retryAfter, now) => StaleLease(db, worker, lease, Clock(now, now, now));
  }

  /** Once a portal moves its pointer, no lease of an earlier epoch on a non-discovery task is newly
      accepted by any operation but the handoff, ever again. */
  lemma OldEpochNeverAccepted(cfg: Config, before: seq<Step>, move: Step, after: seq<Step>, late: Step)
    requires move.ChangeStep?
    requires CurrentEpoch(Apply(cfg, Run(cfg, EMPTY, before), move), move.source) > CurrentEpoch(Run(cfg, EMPTY, before), move.source)
    requires LeaseStep(late) && !late.HandoffStep? && late.worker.source == move.source
    requires late.lease.activationEpoch <= CurrentEpoch(Run(cfg, EMPTY, before), move.source)
    requires var db := Run(cfg, Apply(cfg, Run(cfg, EMPTY, before), move), after);
             late.lease.taskId in db.tasks ==> !db.tasks[late.lease.taskId].taskClass.DiscoveryCapture?
    ensures var db := Run(cfg, Apply(cfg, Run(cfg, EMPTY, before), move), after); Apply(cfg, db, late) == db
  {
    hide Fenced, ReleasesSound, ReleasesAdvance, Apply, CurrentEpoch;
    var moved := Apply(cfg, Run(cfg, EMPTY, before), move);
    RunConcat(cfg, EMPTY, before, [move]);
    OneStep(cfg, Run(cfg, EMPTY, before), move);
    EpochsIncrease(cfg, before + [move], after, move.source);
    var db := Run(cfg, moved, after);
    if late.lease.taskId in db.tasks {
      StaleHere(db, late);
      StaleLeaseChangesNothing(cfg, db, late);
    } else {
      NoTaskNoRun(db, late.lease);
      MissingTaskChangesNothing(cfg, db, late);
    }
  }

  lemma OneStep(cfg: Config, db: Db, step: Step)
    ensures Run(cfg, db, [step]) == Apply(cfg, db, step)
  {
    hide Apply;
    assert [step][..0] == [];
  }

  lemma StaleHere(db: Db, late: Step)
    requires LeaseStep(late) && late.lease.taskId in db.tasks && !db.tasks[late.lease.taskId].taskClass.DiscoveryCapture?
    requires late.lease.activationEpoch < CurrentEpoch(db, late.worker.source)
    ensures StaleEpoch(db, late.worker, late.lease)
  {
  }

  lemma NoTaskNoRun(db: Db, lease: ScrapeLease)
    requires lease.taskId !in db.tasks
    ensures forall worker, clock :: !Leased(db, worker, lease, clock)
    ensures forall worker, now :: !Admitted(db, worker, lease, now)
  {
  }

  lemma MissingTaskChangesNothing(cfg: Config, db: Db, late: Step)
    requires LeaseStep(late) && !late.HandoffStep? && late.lease.taskId !in db.tasks
    ensures Apply(cfg, db, late) == db
  {
    hide ApplyOutside, ApplyQueue, Leased, Admitted, AttemptOf;
    NoTaskNoRun(db, late.lease);
  }

  /** The handoff is not fenced by epochs.  In every reachable database it changes anything exactly for another
      portal's listing that the task has not been handed to yet, while the task runs unexpired under this worker
      and token; and it succeeds exactly then or where the handoff is already recorded. */
  lemma HandoffAcceptedExactly(cfg: Config, steps: seq<Step>, worker: WorkerIdentity, lease: ScrapeLease, target: Portal,
                               listing: Option<string>, id: int, now: Time)
    ensures var db := Run(cfg, EMPTY, steps);
            var (db', reply) := Redirects.Handoff(db, worker, lease, target, listing, id, now);
            var asked := target != worker.source && listing.Some?;
            var known := asked && HandoffKey(lease.taskId, target, listing.value) in db.handoffs;
            (db' != db <==> asked && !known && Redirects.HandoffLeased(db, worker, lease, now))
            && (reply.Ok? <==> known || (asked && Redirects.HandoffLeased(db, worker, lease, now)))
  {
    hide Fenced, Redirects.HandoffAttempt;
    ReachableFenced(cfg, steps);
    var db := Run(cfg, EMPTY, steps);
    if Redirects.HandoffLeased(db, worker, lease, now) {
      OwnAttempt(db, worker, lease, now);
    }
  }

  /** A running lease has its attempt, under the same token and worker. */
  lemma OwnAttempt(db: Db, worker: WorkerIdentity, lease: ScrapeLease, now: Time)
    requires Fenced(db) && Redirects.HandoffLeased(db, worker, lease, now)
    ensures Runs(db, lease.taskId) && Redirects.HandoffAttempt(db, worker, lease, Newest(db, lease.taskId))
  {
    hide Fenced;
    NewestAttempt(db, lease.taskId);
  }
}
