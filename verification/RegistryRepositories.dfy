/** The release registry, the redirect handoffs and the retention job on the shared database. */
module RegistryRepositories {
  import opened Options
  import opened Contracts
  import opened Coordinator
  import opened Fencing
  import opened Changes
  import opened Persistence
  import P = ParserReleases
  import Q = ScrapeQueue
  import Redirects
  import Calendar

  lemma RegisterIntact(cfg: Config, db: Db, hash: Hash, source: Portal, provenance: string)
    requires Intact(db)
    ensures Intact(P.Register(db, hash, source, provenance).0)
  {
    hide Intact, P.Register;
    StepIntact(cfg, db, RegisterReleaseStep(hash, source, provenance));
  }

  lemma MoveIntact(cfg: Config, db: Db, source: Portal, release: Hash, action: ChangeAction, expected: Option<int>,
                   eligible: bool, health: int, now: Time)
    requires Intact(db)
    ensures Intact(P.MovePointer(db, source, release, action, expected, eligible, health, now).0)
  {
    hide Intact, P.MovePointer;
    StepIntact(cfg, db, ChangeStep(source, release, action, expected, eligible, health, now));
  }

  lemma HandoffIntact(cfg: Config, db: Db, worker: WorkerIdentity, lease: ScrapeLease, target: Portal, listing: Option<string>,
                      id: int, now: Time)
    requires Intact(db)
    ensures Intact(Redirects.Handoff(db, worker, lease, target, listing, id, now).0)
  {
    hide Intact, Redirects.Handoff;
    StepIntact(cfg, db, HandoffStep(worker, lease, target, listing, id, now));
  }

  lemma PurgeIntact(cfg: Config, db: Db, ids: set<TaskId>, today: Calendar.Moment)
    requires Intact(db) && forall id :: id in ids ==> Q.PurgeRow(db, today, id)
    ensures Intact(Q.Purge(db, ids))
  {
    hide Intact, Q.Purge, Q.PurgeRow;
    StepIntact(cfg, db, PurgeStep(ids, today));
  }

  // ----- parser releases

  class ParserReleaseRepository {
    const database: Database
    const cfg: Config
    const health: int

    constructor (database: Database, cfg: Config, health: int)
      ensures this.database == database && this.cfg == cfg && this.health == health
    {
      this.database, this.cfg, this.health := database, cfg, health;
    }

    /** `register`. */
    method Register(hash: Hash, source: Portal, provenance: string) returns (reply: Reply<ReleaseStatus>)
      requires database.Valid()
      modifies database
      ensures database.Valid()
      ensures (database.State(), reply) == P.Register(old(database.State()), hash, source, provenance)
    {
      hide Intact;
      RegisterIntact(cfg, database.State(), hash, source, provenance);
      if hash in database.releases {
        var existing := database.releases[hash];
        if existing.source != source || existing.provenance != provenance {
          return Invalid;
        }
        return Ok(existing.status);
      }
      database.releases := database.releases[hash := Release(source, provenance, Draft)];
      reply := Ok(Draft);
    }

    /** Hashes that healthy, recently seen workers of one deployment advertise. */
    method CapabilitiesOf(source: Portal, d: Deployment, now: Time) returns (hashes: set<Hash>)
      ensures hashes == P.Capabilities(database.State(), source, d, health, now)
    {
      hashes := {};
      var rest := database.workers.Keys;
      while rest != {}
        invariant rest <= database.workers.Keys
        invariant forall h :: h in hashes <==> exists w :: w in database.workers && w !in rest && Advertises(database.workers[w], source, d, now, h)
        decreases |rest|
      {
        var w :| w in rest;
        var row := database.workers[w];
        if row.source == source && row.healthy && row.heartbeatAt > now - health && row.deployment == d {
          hashes := hashes + row.releases;
          assert forall h :: h in row.releases <==> Advertises(row, source, d, now, h);
        }
        rest := rest - {w};
      }
    }

    predicate Advertises(row: Worker, source: Portal, d: Deployment, now: Time, h: Hash) {
      h in row.releases && row.source == source && row.healthy && row.heartbeatAt > now - health && row.deployment == d
    }

    /** The gate on capabilities: NAS and VPS workers run the candidate and the release it replaces. */
    method Covered(source: Portal, release: Hash, now: Time) returns (covered: bool)
      ensures covered <==> P.Deployable(database.State(), source, release, health, now)
    {
      var required := {release};
      if source in database.pointers {
        required := required + {database.pointers[source].releaseHash};
      }
      var nas := CapabilitiesOf(source, Nas, now);
      var vps := CapabilitiesOf(source, Vps, now);
      covered := required <= nas && required <= vps;
    }

    /** `_change`; `eligible` is the benchmark verdict on the candidate. */
    method Change(source: Portal, release: Hash, action: ChangeAction, expected: Option<int>, eligible: bool, now: Time)
      returns (reply: Reply<int>)
      requires database.Valid()
      modifies database
      ensures database.Valid()
      ensures (database.State(), reply) == P.MovePointer(old(database.State()), source, release, action, expected, eligible, health, now)
    {
      hide Intact, P.Deployable, P.Changed, P.CurrentEpoch, P.CurrentRelease;
      MoveIntact(cfg, database.State(), source, release, action, expected, eligible, health, now);
      var current, epoch := ReadPointer(source);
      if expected.Some? && expected.value != epoch {
        return Rejected;
      }
      if release !in database.releases || database.releases[release].source != source || database.releases[release].status.Revoked? {
        return Rejected;
      }
      var covered := Covered(source, release, now);
      if !covered || (action.Activate? && !eligible) {
        return Rejected;
      }
      WriteChange(source, release, action, now);
      reply := Ok(epoch + 1);
    }

    /** The rows of a pointer change. */
    method WriteChange(source: Portal, release: Hash, action: ChangeAction, now: Time)
      requires release in database.releases
      modifies database
      ensures database.State() == P.Changed(old(database.State()), source, release, action, now)
    {
      hide P.Withdraw, P.CurrentRelease, P.CurrentEpoch, AuditsOf;
      var current, epoch := ReadPointer(source);
      var audits := ReadAudits(source);
      var releases := WithdrawCurrent(database.releases, current, release, action);
      releases := releases[release := database.releases[release].(status := Active)];
      database.FlushRegistry(database.pointers[source := Pointer(release, epoch + 1)], releases,
                             database.audits[source := audits + [Audit(epoch + 1, current, release, action, now)]]);
    }

    method ReadPointer(source: Portal) returns (current: Option<Hash>, epoch: int)
      ensures current == P.CurrentRelease(database.State(), source) && epoch == P.CurrentEpoch(database.State(), source)
    {
      if source in database.pointers {
        return Some(database.pointers[source].releaseHash), database.pointers[source].epoch;
      }
      return None, 0;
    }

    method ReadAudits(source: Portal) returns (audits: seq<Audit>)
      ensures audits == AuditsOf(database.State(), source)
    {
      audits := if source in database.audits then database.audits[source] else [];
    }

    /** What `rollback` reads first: the newest audit that installed the current release over another one. */
    method RollbackTarget(source: Portal) returns (target: Option<Hash>)
      ensures target == P.RollbackTarget(database.State(), source)
    {
      var audits := if source in database.audits then database.audits[source] else [];
      var n := |audits|;
      while n > 0
        invariant 0 <= n <= |audits|
        invariant P.RollbackTarget(database.State(), source) == P.LatestPrevious(database.State(), source, n)
      {
        if source in database.pointers && audits[n - 1].releaseHash == database.pointers[source].releaseHash
           && audits[n - 1].previous.Some? {
          return audits[n - 1].previous;
        }
        n := n - 1;
      }
      target := None;
    }

    /** The second transaction of `rollback`: `target` is what `RollbackTarget` found in the first, between which
        and this one others may have committed anything; `expected` is what notices them. */
    method RollbackTo(source: Portal, target: Option<Hash>, expected: int, now: Time) returns (reply: Reply<int>)
      requires database.Valid()
      modifies database
      ensures database.Valid()
      ensures (database.State(), reply) ==
                if target.None? then (old(database.State()), Rejected)
                else P.MovePointer(old(database.State()), source, target.value, ChangeAction.Rollback, Some(expected), false, health, now)
    {
      hide Intact, P.MovePointer;
      if target.None? {
        return Rejected;
      }
      reply := Change(source, target.value, ChangeAction.Rollback, Some(expected), false, now);
    }
  }

  /** The release that loses the pointer is retired, or revoked by a rollback. */
  method WithdrawCurrent(releases: map<Hash, Release>, current: Option<Hash>, release: Hash, action: ChangeAction)
    returns (withdrawn: map<Hash, Release>)
    ensures withdrawn == P.Withdraw(releases, current, release, action)
  {
    withdrawn := releases;
    if current.Some? && current.value != release && current.value in releases {
      var row := releases[current.value];
      row := row.(status := if action.Rollback? then Revoked else Retired);
      withdrawn := withdrawn[current.value := row];
    }
  }

  // ----- redirects

  class RedirectHandoffRepository {
    const database: Database
    const cfg: Config

    constructor (database: Database, cfg: Config)
      ensures this.database == database && this.cfg == cfg
    {
      this.database, this.cfg := database, cfg;
    }

    /** The attempt of the leased task under this token and worker. */
    method FindAttempt(worker: WorkerIdentity, lease: ScrapeLease) returns (found: Option<AttemptKey>)
      ensures found.Some? ==> Redirects.HandoffAttempt(database.State(), worker, lease, found.value)
      ensures found.None? ==> forall k :: !Redirects.HandoffAttempt(database.State(), worker, lease, k)
    {
      var rest := database.attempts.Keys;
      while rest != {}
        invariant rest <= database.attempts.Keys
        invariant forall k :: k !in rest ==> !Redirects.HandoffAttempt(database.State(), worker, lease, k)
        decreases |rest|
      {
        var k :| k in rest;
        if k.task == lease.taskId && database.attempts[k].token == lease.token && database.attempts[k].workerId == worker.workerId {
          return Some(k);
        }
        rest := rest - {k};
      }
      found := None;
    }

    /** `handoff`: the redirect is recorded once, and the lease that met it ends. */
    method Handoff(worker: WorkerIdentity, lease: ScrapeLease, target: Portal, listing: Option<string>, id: int, now: Time)
      returns (reply: Reply<int>)
      requires database.Valid()
      modifies database
      ensures database.Valid()
      ensures (database.State(), reply) == Redirects.Handoff(old(database.State()), worker, lease, target, listing, id, now)
    {
      hide Intact, Redirects.EndLease, Redirects.HandoffAttempt;
      HandoffIntact(cfg, database.State(), worker, lease, target, listing, id, now);
      if target == worker.source || listing.None? {
        return Invalid;
      }
      var key := HandoffKey(lease.taskId, target, listing.value);
      if key in database.handoffs {
        return Ok(database.handoffs[key]);
      }
      if lease.taskId !in database.tasks {
        return LostLease;
      }
      var task := database.tasks[lease.taskId];
      if task.source != worker.source || !task.state.Running? || task.leaseOwner != Some(worker.workerId)
         || task.leaseToken != Some(lease.token) || task.leaseExpiresAt.None? || task.leaseExpiresAt.value <= now {
        return LostLease;
      }
      var found := FindAttempt(worker, lease);
      if found.None? {
        return LostLease;
      }
      OneHandoffAttempt(database.State(), worker, lease, now, found.value);
      WriteHandoff(key, id, found.value, now);
      reply := Ok(id);
    }

    method WriteHandoff(key: HandoffKey, id: int, k: AttemptKey, now: Time)
      requires key.task in database.tasks && k in database.attempts
      modifies database
      ensures database.State() == Redirects.EndLease(old(database.State()), key.task, key, id, k, now)
    {
      database.handoffs := database.handoffs[key := id];
      database.tasks := database.tasks[key.task := ClearLease(database.tasks[key.task].(state := Succeeded, finishedAt := Some(now)))];
      database.attempts := database.attempts[k :=
        database.attempts[k].(outcome := Some(AttemptSucceeded), code := Some(Redirected), finishedAt := Some(now))];
    }
  }

  lemma OneHandoffAttempt(db: Db, worker: WorkerIdentity, lease: ScrapeLease, now: Time, k: AttemptKey)
    requires Intact(db) && Redirects.HandoffLeased(db, worker, lease, now) && Redirects.HandoffAttempt(db, worker, lease, k)
    ensures k in db.attempts
    ensures forall other :: Redirects.HandoffAttempt(db, worker, lease, other) ==> other == k
  {
    hide Fenced, UniqueKeys;
    HandoffNewest(db, worker, lease, now);
  }

  // ----- retention

  class ProductionRetentionRepository {
    const database: Database
    const cfg: Config

    constructor (database: Database, cfg: Config)
      ensures this.database == database && this.cfg == cfg
    {
      this.database, this.cfg := database, cfg;
    }

    /** Whether a retained result still uses the capture. */
    method CaptureUsed(captureId: CaptureId) returns (used: bool)
      ensures used <==> exists id :: id in database.results && database.results[id].captureId == captureId
    {
      used := false;
      var rest := database.results.Keys;
      while rest != {} && !used
        invariant rest <= database.results.Keys
        invariant used ==> exists id :: id in database.results && database.results[id].captureId == captureId
        invariant !used ==> forall id :: id in database.results && id !in rest ==> database.results[id].captureId != captureId
        decreases |rest|
      {
        assert (forall id :: id !in rest) ==> rest == {};
        var id :| id in rest;
        rest := rest - {id};
        used := database.results[id].captureId == captureId;
      }
    }

    /** `_purge_production_result`: the result goes, and with the last result of its capture the capture and
        the replay bindings that name it. */
    method PurgeResult(id: TaskId)
      requires id in database.results
      modifies database
      ensures database.State() == Q.Purge(old(database.State()), {id})
    {
      ghost var before := database.State();
      var captureId := database.results[id].captureId;
      database.results := database.results - {id};
      var used := CaptureUsed(captureId);
      if !used {
        database.captures := database.captures - {captureId};
        database.bindings := map task | task in database.bindings && database.bindings[task].captureId != captureId :: database.bindings[task];
      }
      PurgeOne(before, database.State(), id, used);
    }

    /** The daily purge: the rows the query selected, one by one, have the effect of one purge of them all. */
    method PurgeAll(ids: set<TaskId>, today: Calendar.Moment)
      requires database.Valid() && forall id :: id in ids ==> Q.PurgeRow(database.State(), today, id)
      modifies database
      ensures database.Valid()
      ensures database.State() == Q.Purge(old(database.State()), ids)
    {
      hide Intact, Q.Purge;
      ghost var before := database.State();
      PurgeIntact(cfg, before, ids, today);
      PurgeNone(before);
      assert ids - ids == {};
      var rest := ids;
      while rest != {}
        invariant rest <= ids && database.State() == Q.Purge(before, ids - rest)
        decreases |rest|
      {
        assert (forall id :: id !in rest) ==> rest == {};
        var id :| id in rest;
        PurgeKeeps(before, ids - rest, id);
        PurgeResult(id);
        PurgeMore(before, ids - rest, id);
        assert ids - (rest - {id}) == (ids - rest) + {id};
        rest := rest - {id};
      }
      assert ids - {} == ids;
    }
  }

  lemma UsedByOne(db: Db, id: TaskId, c: CaptureId)
    requires id in db.results
    ensures UsedWithin(db, {id}, c) <==> c == db.results[id].captureId
  {
    if c == db.results[id].captureId {
      assert id in db.results && id in {id};
    }
  }

  lemma UsedByOthers(db: Db, results: map<TaskId, ParserResult>, id: TaskId, used: bool)
    requires id in db.results && results == db.results - {id}
    requires used <==> exists other :: other in results && results[other].captureId == db.results[id].captureId
    ensures used <==> UsedBeside(db, {id}, db.results[id].captureId)
  {
    if used {
      var other :| other in results && results[other].captureId == db.results[id].captureId;
      assert other in db.results && other !in {id};
    }
    if UsedBeside(db, {id}, db.results[id].captureId) {
      var other :| other in db.results && other !in {id} && db.results[other].captureId == db.results[id].captureId;
      assert other in results;
    }
  }

  lemma PurgeOne(db: Db, db': Db, id: TaskId, used: bool)
    requires id in db.results
    requires var captureId := db.results[id].captureId;
             db'.results == db.results - {id}
             && (used <==> exists other :: other in db'.results && db'.results[other].captureId == captureId)
             && db'.captures == (if used then db.captures else db.captures - {captureId})
             && db'.bindings == (if used then db.bindings
                                 else map task | task in db.bindings && db.bindings[task].captureId != captureId :: db.bindings[task])
    requires db' == db.(results := db'.results, captures := db'.captures, bindings := db'.bindings)
    ensures db' == Q.Purge(db, {id})
  {
    hide Q.Purge, UsedWithin, UsedBeside;
    var purged, captureId := Q.Purge(db, {id}), db.results[id].captureId;
    PurgeTables(db, {id});
    forall c ensures UsedWithin(db, {id}, c) <==> c == captureId {
      UsedByOne(db, id, c);
    }
    UsedByOthers(db, db'.results, id, used);
    forall c ensures c in purged.captures <==> c in db'.captures
             ensures c in purged.captures ==> purged.captures[c] == db'.captures[c] {
      assert UsedWithin(db, {id}, c) <==> c == captureId;
    }
    forall t ensures t in purged.bindings <==> t in db'.bindings
             ensures t in purged.bindings ==> purged.bindings[t] == db'.bindings[t] {
      if t in db.bindings {
        assert UsedWithin(db, {id}, db.bindings[t].captureId) <==> db.bindings[t].captureId == captureId;
      }
    }
    assert purged.captures == db'.captures;
    assert purged.bindings == db'.bindings;
  }

  lemma PurgeNone(db: Db)
    ensures Q.Purge(db, {}) == db
  {
    var purged := Q.Purge(db, {});
    assert purged.results == db.results;
    assert purged.captures == db.captures;
    assert purged.bindings == db.bindings;
  }

  lemma PurgeKeeps(db: Db, ids: set<TaskId>, id: TaskId)
    requires id in db.results && id !in ids
    ensures id in Q.Purge(db, ids).results
  {
  }

  /** A result outside `ids` uses the capture. */
  ghost predicate UsedBeside(db: Db, ids: set<TaskId>, c: CaptureId) {
    exists id :: id in db.results && id !in ids && db.results[id].captureId == c
  }

  ghost predicate UsedWithin(db: Db, ids: set<TaskId>, c: CaptureId) {
    exists id :: id in db.results && id in ids && db.results[id].captureId == c
  }

  lemma PurgeTables(db: Db, ids: set<TaskId>)
    ensures var db' := Q.Purge(db, ids);
            db'.results == db.results - ids
            && (forall c :: c in db'.captures <==> c in db.captures && (UsedBeside(db, ids, c) || !UsedWithin(db, ids, c)))
            && (forall c :: c in db'.captures ==> db'.captures[c] == db.captures[c])
            && (forall t :: t in db'.bindings <==>
                  t in db.bindings && (UsedBeside(db, ids, db.bindings[t].captureId) || !UsedWithin(db, ids, db.bindings[t].captureId)))
            && (forall t :: t in db'.bindings ==> db'.bindings[t] == db.bindings[t])
            && db' == db.(results := db'.results, captures := db'.captures, bindings := db'.bindings)
  {
    var results := map id | id in db.results && id !in ids :: db.results[id];
    var dropped := set id | id in db.results && id in ids :: db.results[id].captureId;
    var kept := set id | id in results :: results[id].captureId;
    assert results == db.results - ids;
    forall c ensures c in dropped <==> UsedWithin(db, ids, c) {
    }
    forall c ensures c in kept <==> UsedBeside(db, ids, c) {
      if UsedBeside(db, ids, c) {
        var id :| id in db.results && id !in ids && db.results[id].captureId == c;
        assert id in results;
      }
    }
  }

  lemma UsesAfter(db: Db, mid: Db, ids: set<TaskId>, id: TaskId, c: CaptureId)
    requires id in db.results && id !in ids && mid.results == db.results - ids
    ensures UsedBeside(mid, {id}, c) <==> UsedBeside(db, ids + {id}, c)
    ensures UsedWithin(mid, {id}, c) <==> db.results[id].captureId == c
    ensures UsedWithin(db, ids + {id}, c) <==> UsedWithin(db, ids, c) || db.results[id].captureId == c
    ensures UsedBeside(db, ids, c) <==> UsedBeside(db, ids + {id}, c) || db.results[id].captureId == c
  {
    assert id in mid.results && mid.results[id] == db.results[id];
    if UsedBeside(db, ids, c) {
      var i :| i in db.results && i !in ids && db.results[i].captureId == c;
      assert i == id || i !in ids + {id};
    }
    if UsedBeside(db, ids + {id}, c) {
      var i :| i in db.results && i !in ids + {id} && db.results[i].captureId == c;
      assert i in mid.results && i !in {id} && i !in ids;
    }
    if UsedWithin(db, ids + {id}, c) {
      var i :| i in db.results && i in ids + {id} && db.results[i].captureId == c;
      assert i == id || i in ids;
    }
    if UsedWithin(db, ids, c) {
      var i :| i in db.results && i in ids && db.results[i].captureId == c;
      assert i in ids + {id};
    }
  }

  /** Purging in two steps is purging at once. */
  lemma PurgeMore(db: Db, ids: set<TaskId>, id: TaskId)
    requires id in db.results && id !in ids
    ensures Q.Purge(Q.Purge(db, ids), {id}) == Q.Purge(db, ids + {id})
  {
    hide Q.Purge, UsedBeside, UsedWithin;
    var mid := Q.Purge(db, ids);
    var one, two := Q.Purge(db, ids + {id}), Q.Purge(mid, {id});
    PurgeTables(db, ids);
    PurgeTables(db, ids + {id});
    PurgeTables(mid, {id});
    assert one.results == two.results;
    forall c
      ensures (c in one.captures <==> c in two.captures) && (c in one.captures ==> one.captures[c] == two.captures[c])
    {
      UsesAfter(db, mid, ids, id, c);
    }
    assert one.captures == two.captures;
    forall t
      ensures (t in one.bindings <==> t in two.bindings) && (t in one.bindings ==> one.bindings[t] == two.bindings[t])
    {
      if t in db.bindings {
        UsesAfter(db, mid, ids, id, db.bindings[t].captureId);
      }
    }
    assert one.bindings == two.bindings;
  }
}
