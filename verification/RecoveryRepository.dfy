/** Planning replays of retained artifacts: one task for each content that a new release should read again. */
module RecoveryRepository {
  import opened Options
  import opened Contracts
  import opened Coordinator
  import opened Persistence
  import Fencing
  import Q = ScrapeQueue
  import Calendar

  // ----- the newest row of each listing

  /** A snapshot or a capture of a listing, with the time it was taken. */
  datatype Dated = Dated(listing: int, id: int, at: Time)

  predicate After(a: Dated, b: Dated) {
    a.at > b.at || (a.at == b.at && a.id > b.id)
  }

  ghost predicate NewestOf(rows: seq<Dated>, newest: map<int, Dated>) {
    (forall r :: r in rows ==> r.listing in newest)
    && (forall l :: l in newest ==> newest[l] in rows && newest[l].listing == l)
    && (forall r :: r in rows ==> !After(r, newest[r.listing]))
  }

  /** The loops over snapshots and captures: each listing keeps its latest row, whatever the row order. */
  method Newest(rows: seq<Dated>) returns (newest: map<int, Dated>)
    ensures NewestOf(rows, newest)
  {
    newest := map[];
    for i := 0 to |rows|
      invariant NewestOf(rows[..i], newest)
    {
      var row := rows[i];
      if row.listing !in newest || After(row, newest[row.listing]) {
        newest := newest[row.listing := row];
      }
      assert rows[..i + 1] == rows[..i] + [row];
    }
    assert rows[..|rows|] == rows;
  }

  /** The answer depends on the rows, not on the order in which the database returns them. */
  lemma NewestIgnoresRowOrder(rows: seq<Dated>, rows2: seq<Dated>, newest: map<int, Dated>, newest2: map<int, Dated>)
    requires NewestOf(rows, newest) && NewestOf(rows2, newest2) && forall r :: r in rows <==> r in rows2
    ensures newest == newest2
  {
    forall l | l in newest ensures l in newest2 && newest2[l] == newest[l] {
      assert newest[l] in rows2;
      assert newest2[l] in rows;
    }
    forall l | l in newest2 ensures l in newest {
      assert newest2[l] in rows;
    }
  }

  // ----- candidates

  /** A retained diagnostic joined to its result, capture, snapshot and listing. */
  datatype ReplayRow = ReplayRow(listing: int, url: Url, snapshot: int, observedAt: Time, origin: TaskId, missing: bool)

  /** What the join and its filters say about a row. */
  predicate Joined(db: Db, release: Hash, row: ReplayRow) {
    row.origin in db.results && db.results[row.origin].captureId in db.captures
    && db.results[row.origin].releaseHash in db.releases && db.results[row.origin].releaseHash != release
  }

  predicate OnNewest(db: Db, snapshots: map<int, Dated>, captures: map<int, Dated>, row: ReplayRow) {
    row.origin in db.results
    && row.listing in snapshots && snapshots[row.listing].id == row.snapshot
    && row.listing in captures && captures[row.listing].id == db.results[row.origin].captureId
  }

  /** The result is incomplete, or its release was withdrawn. */
  predicate Needed(db: Db, release: Hash, row: ReplayRow)
    requires Joined(db, release, row)
  {
    row.missing || db.releases[db.results[row.origin].releaseHash].status.Revoked?
  }

  function KeyOf(db: Db, source: Portal, release: Hash, row: ReplayRow): IdempotencyKey
    requires Joined(db, release, row)
  {
    ReplayKey(source, db.captures[db.results[row.origin].captureId].contentHash, release)
  }

  /** The comparison of two candidates of one listing: by snapshot, then by capture. */
  predicate Exceeds(results: map<TaskId, ParserResult>, captures: map<CaptureId, Capture>, a: ReplayRow, b: ReplayRow)
    requires a.origin in results && results[a.origin].captureId in captures
    requires b.origin in results && results[b.origin].captureId in captures
  {
    var c, d := results[a.origin].captureId, results[b.origin].captureId;
    After(Dated(a.listing, a.snapshot, a.observedAt), Dated(b.listing, b.snapshot, b.observedAt))
    || (a.snapshot == b.snapshot && a.observedAt == b.observedAt
        && After(Dated(a.listing, c, Calendar.Instant(captures[c].fetchedAt)), Dated(b.listing, d, Calendar.Instant(captures[d].fetchedAt))))
  }

  ghost predicate HasReplay(db: Db, key: IdempotencyKey) {
    exists id :: Q.HasKey(db, key, id)
  }

  predicate ListingNeeded(db: Db, release: Hash, rows: seq<ReplayRow>, listing: int)
    requires forall row :: row in rows ==> Joined(db, release, row)
  {
    forall row :: row in rows && row.listing == listing ==> Needed(db, release, row)
  }

  /** What planning leaves behind: new tasks replay needed candidates only, and where every row of a listing is
      needed, the content of its newest capture has a replay task. */
  ghost predicate PlanOutcome(before: Db, after: Db, source: Portal, release: Hash, rows: seq<ReplayRow>,
                              snapshots: map<int, Dated>, captures: map<int, Dated>)
    requires forall row :: row in rows ==> Joined(before, release, row)
  {
    (forall id :: id in before.tasks ==> id in after.tasks && after.tasks[id] == before.tasks[id])
    && (forall id :: id in after.tasks && id !in before.tasks ==>
          exists row :: row in rows && OnNewest(before, snapshots, captures, row) && Needed(before, release, row)
                        && after.tasks[id].key == KeyOf(before, source, release, row))
    && (forall row :: row in rows && OnNewest(before, snapshots, captures, row) && ListingNeeded(before, release, rows, row.listing) ==>
          HasReplay(after, KeyOf(before, source, release, row)))
  }

  /** The row's result lacks fields, or its release was withdrawn. */
  predicate Faulty(db: Db, row: ReplayRow) {
    row.missing
    || (row.origin in db.results && db.results[row.origin].releaseHash in db.releases
        && db.releases[db.results[row.origin].releaseHash].status == Revoked)
  }

  /** The task replays the content of the row's capture under the release. */
  predicate Replays(db: Db, source: Portal, release: Hash, row: ReplayRow, t: Task) {
    row.origin in db.results && db.results[row.origin].captureId in db.captures
    && t.key == ReplayKey(source, db.captures[db.results[row.origin].captureId].contentHash, release)
  }

  lemma NeededExactly(db: Db, release: Hash, row: ReplayRow)
    requires Joined(db, release, row)
    ensures Needed(db, release, row) <==> Faulty(db, row)
  {
  }

  /** In terms of the tables: planning adds replays of faulty results on newest captures only, and a listing all of whose
      rows are faulty has its newest capture's content replayed. */
  lemma FaultyAreReplayed(before: Db, after: Db, source: Portal, release: Hash, rows: seq<ReplayRow>,
                          snapshots: map<int, Dated>, captures: map<int, Dated>)
    requires forall row :: row in rows ==> Joined(before, release, row)
    requires PlanOutcome(before, after, source, release, rows, snapshots, captures)
    ensures forall id :: id in after.tasks && id !in before.tasks ==>
              exists row :: row in rows && OnNewest(before, snapshots, captures, row) && Faulty(before, row)
                            && Replays(before, source, release, row, after.tasks[id])
    ensures forall row :: row in rows && OnNewest(before, snapshots, captures, row)
                          && (forall other :: other in rows && other.listing == row.listing ==> Faulty(before, other)) ==>
              exists id :: id in after.tasks && Replays(before, source, release, row, after.tasks[id])
  {
    forall row | row in rows ensures Needed(before, release, row) <==> Faulty(before, row) {
      NeededExactly(before, release, row);
    }
    hide Faulty, Needed;
    forall row | row in rows && OnNewest(before, snapshots, captures, row)
                 && (forall other :: other in rows && other.listing == row.listing ==> Faulty(before, other))
      ensures exists id :: id in after.tasks && Replays(before, source, release, row, after.tasks[id])
    {
      assert ListingNeeded(before, release, rows, row.listing);
      var id :| Q.HasKey(after, KeyOf(before, source, release, row), id);
      assert Replays(before, source, release, row, after.tasks[id]);
    }
  }

  // ----- the loop over the candidates

  /** Tables that planning reads stay, tasks are only added. */
  ghost predicate OnlyAdds(db: Db, db': Db) {
    db'.results == db.results && db'.captures == db.captures && db'.releases == db.releases && db'.pointers == db.pointers
    && forall id :: id in db.tasks ==> id in db'.tasks && db'.tasks[id] == db.tasks[id]
  }

  ghost predicate JoinedPicks(db: Db, release: Hash, picks: map<int, ReplayRow>) {
    forall l :: l in picks ==> Joined(db, release, picks[l])
  }

  /** The needed candidates outside `rest` have their replay task. */
  ghost predicate Covers(before: Db, db: Db, source: Portal, release: Hash, picks: map<int, ReplayRow>, rest: set<int>)
    requires JoinedPicks(before, release, picks)
  {
    forall l :: l in picks && l !in rest && Needed(before, release, picks[l]) ==> HasReplay(db, KeyOf(before, source, release, picks[l]))
  }

  /** New tasks are those of needed candidates. */
  ghost predicate OnlyNeeded(before: Db, db: Db, source: Portal, release: Hash, picks: map<int, ReplayRow>)
    requires JoinedPicks(before, release, picks)
  {
    forall id :: id in db.tasks && id !in before.tasks ==>
      exists l :: l in picks && Needed(before, release, picks[l]) && db.tasks[id].key == KeyOf(before, source, release, picks[l])
  }

  lemma AddsMore(before: Db, mid: Db, db: Db)
    requires OnlyAdds(before, mid) && OnlyAdds(mid, db)
    ensures OnlyAdds(before, db) && db.pointers == before.pointers
    ensures forall id :: id in mid.tasks ==> id in db.tasks
    ensures forall id :: id in before.tasks ==> id in mid.tasks
  {
  }

  lemma SameRow(db: Db, db': Db, source: Portal, release: Hash, row: ReplayRow)
    requires OnlyAdds(db, db') && Joined(db, release, row)
    ensures Joined(db', release, row) && KeyOf(db', source, release, row) == KeyOf(db, source, release, row)
    ensures Needed(db', release, row) <==> Needed(db, release, row)
  {
  }

  lemma StillHeld(db: Db, db': Db, key: IdempotencyKey)
    requires OnlyAdds(db, db') && HasReplay(db, key)
    ensures HasReplay(db', key)
  {
    var id :| Q.HasKey(db, key, id);
    assert Q.HasKey(db', key, id);
  }

  /** One candidate planned. */
  ghost predicate Planned(db: Db, db': Db, source: Portal, release: Hash, epoch: int, row: ReplayRow, now: Time, id: Option<TaskId>)
    requires Joined(db, release, row)
  {
    var key := KeyOf(db, source, release, row);
    OnlyAdds(db, db')
    && (id.None? <==> !Needed(db, release, row) || HasReplay(db, key))
    && (Needed(db, release, row) ==> HasReplay(db', key))
    && (id.None? ==> db' == db)
    && (id.Some? ==> id.value !in db.tasks && db'.tasks.Keys == db.tasks.Keys + {id.value} && db'.tasks[id.value].key == key
                     && db' == Q.PlanReplay(db, id.value, source, release, epoch, row.origin, row.url, now).0)
  }

  lemma CoversMore(before: Db, mid: Db, db: Db, source: Portal, release: Hash, picks: map<int, ReplayRow>, rest: set<int>, l: int)
    requires JoinedPicks(before, release, picks) && l in picks && OnlyAdds(mid, db)
    requires Covers(before, mid, source, release, picks, rest)
    requires Needed(before, release, picks[l]) ==> HasReplay(db, KeyOf(before, source, release, picks[l]))
    ensures Covers(before, db, source, release, picks, rest - {l})
  {
    hide HasReplay, KeyOf, Needed;
    forall other | other in picks && other !in rest && Needed(before, release, picks[other])
      ensures HasReplay(db, KeyOf(before, source, release, picks[other]))
    {
      StillHeld(mid, db, KeyOf(before, source, release, picks[other]));
    }
  }

  lemma NeededMore(before: Db, mid: Db, db: Db, source: Portal, release: Hash, picks: map<int, ReplayRow>, l: int, id: TaskId)
    requires JoinedPicks(before, release, picks) && l in picks && Needed(before, release, picks[l])
    requires OnlyNeeded(before, mid, source, release, picks) && OnlyAdds(mid, db) && db.tasks.Keys == mid.tasks.Keys + {id}
    requires id in db.tasks && db.tasks[id].key == KeyOf(before, source, release, picks[l])
    ensures OnlyNeeded(before, db, source, release, picks)
  {
    hide KeyOf, Needed;
    forall other | other in db.tasks && other !in before.tasks
      ensures exists l :: l in picks && Needed(before, release, picks[l]) && db.tasks[other].key == KeyOf(before, source, release, picks[l])
    {
      if other != id {
        assert other in mid.tasks && mid.tasks[other] == db.tasks[other];
      }
    }
  }

  /** The loop's facts after one more candidate. */
  lemma CandidatePlanned(before: Db, mid: Db, db: Db, source: Portal, release: Hash, epoch: int, picks: map<int, ReplayRow>, rest: set<int>,
                         l: int, now: Time, id: Option<TaskId>)
    requires JoinedPicks(before, release, picks) && l in picks && OnlyAdds(before, mid) && Joined(mid, release, picks[l])
    requires Planned(mid, db, source, release, epoch, picks[l], now, id)
    requires Covers(before, mid, source, release, picks, rest) && OnlyNeeded(before, mid, source, release, picks)
    ensures OnlyAdds(before, db) && Covers(before, db, source, release, picks, rest - {l}) && OnlyNeeded(before, db, source, release, picks)
    ensures forall id :: id in mid.tasks ==> id in db.tasks
    ensures id.Some? ==> id.value !in before.tasks && id.value in db.tasks
                         && db == Q.PlanReplay(mid, id.value, source, release, epoch, picks[l].origin, picks[l].url, now).0
    ensures id.None? ==> db == mid
  {
    hide Q.PlanReplay, KeyOf, Needed, HasReplay, Joined, OnlyNeeded, Covers, OnlyAdds;
    SameRow(before, mid, source, release, picks[l]);
    PlannedAdds(mid, db, source, release, epoch, picks[l], now, id);
    AddsMore(before, mid, db);
    CoversMore(before, mid, db, source, release, picks, rest, l);
    if id.Some? {
      NeededMore(before, mid, db, source, release, picks, l, id.value);
    }
  }

  lemma PlannedAdds(db: Db, db': Db, source: Portal, release: Hash, epoch: int, row: ReplayRow, now: Time, id: Option<TaskId>)
    requires Joined(db, release, row) && Planned(db, db', source, release, epoch, row, now, id)
    ensures OnlyAdds(db, db')
  {
  }

  /** The candidates' tasks are the planned outcome. */
  lemma Concludes(before: Db, db: Db, source: Portal, release: Hash, rows: seq<ReplayRow>,
                  snapshots: map<int, Dated>, captures: map<int, Dated>, picks: map<int, ReplayRow>)
    requires forall row :: row in rows ==> Joined(before, release, row)
    requires forall l :: l in picks ==> picks[l] in rows && picks[l].listing == l && OnNewest(before, snapshots, captures, picks[l])
    requires forall row :: row in rows && OnNewest(before, snapshots, captures, row) ==> row.listing in picks
    requires OnlyAdds(before, db) && Covers(before, db, source, release, picks, {}) && OnlyNeeded(before, db, source, release, picks)
    ensures PlanOutcome(before, db, source, release, rows, snapshots, captures)
  {
    hide HasReplay, Needed;
    forall row | row in rows && OnNewest(before, snapshots, captures, row) && ListingNeeded(before, release, rows, row.listing)
      ensures HasReplay(db, KeyOf(before, source, release, row))
    {
      var pick := picks[row.listing];
      assert Needed(before, release, pick) && KeyOf(before, source, release, pick) == KeyOf(before, source, release, row);
    }
  }

  lemma PlanIntact(cfg: Config, db: Db, id: TaskId, source: Portal, release: Hash, epoch: int, origin: TaskId, url: Url, now: Time)
    requires Intact(db)
    ensures Intact(Q.PlanReplay(db, id, source, release, epoch, origin, url, now).0)
  {
    hide Intact, Q.PlanReplay;
    StepIntact(cfg, db, PlanReplayStep(id, source, release, epoch, origin, url, now));
  }

  lemma RunMore(cfg: Config, db: Db, steps: seq<Step>, step: Step)
    requires step.PlanReplayStep?
    ensures Run(cfg, db, steps + [step])
            == Q.PlanReplay(Run(cfg, db, steps), step.id, step.source, step.hash, step.epoch, step.origin, step.replayUrl, step.now).0
  {
    hide Q.PlanReplay;
    assert (steps + [step])[..|steps|] == steps;
  }

  lemma PlanAdds(db: Db, id: TaskId, source: Portal, release: Hash, epoch: int, row: ReplayRow, now: Time)
    requires PointsAt(db, source, release, epoch) && Joined(db, release, row)
    requires id !in db.tasks && !HasReplay(db, KeyOf(db, source, release, row))
    ensures var (db', reply) := Q.PlanReplay(db, id, source, release, epoch, row.origin, row.url, now);
            reply == Ok(id) && OnlyAdds(db, db') && db'.tasks.Keys == db.tasks.Keys + {id}
            && db'.tasks[id].key == KeyOf(db, source, release, row)
            && id in db'.bindings && db'.bindings[id].captureId == db.results[row.origin].captureId
            && db'.bindings[id].resultExpiresAt == db.results[row.origin].expiresAt
  {
  }

  lemma ConcludesForAll(before: Db, db: Db, source: Portal, release: Hash, snapshotRows: seq<Dated>, captureRows: seq<Dated>,
                        rows: seq<ReplayRow>, snapshots: map<int, Dated>, captures: map<int, Dated>, picks: map<int, ReplayRow>)
    requires forall row :: row in rows ==> Joined(before, release, row)
    requires NewestOf(snapshotRows, snapshots) && NewestOf(captureRows, captures)
    requires forall l :: l in picks ==> picks[l] in rows && picks[l].listing == l && OnNewest(before, snapshots, captures, picks[l])
    requires forall row :: row in rows && OnNewest(before, snapshots, captures, row) ==> row.listing in picks
    requires OnlyAdds(before, db) && Covers(before, db, source, release, picks, {}) && OnlyNeeded(before, db, source, release, picks)
    ensures forall s, c :: NewestOf(snapshotRows, s) && NewestOf(captureRows, c) ==>
              PlanOutcome(before, db, source, release, rows, s, c)
  {
    hide NewestOf, OnNewest, Joined, PlanOutcome, Covers, OnlyNeeded, OnlyAdds;
    Concludes(before, db, source, release, rows, snapshots, captures, picks);
    forall s, c | NewestOf(snapshotRows, s) && NewestOf(captureRows, c) ensures PlanOutcome(before, db, source, release, rows, s, c) {
      NewestIgnoresRowOrder(snapshotRows, snapshotRows, snapshots, s);
      NewestIgnoresRowOrder(captureRows, captureRows, captures, c);
    }
  }

  /** The planned tasks are new, and step `i` plans the `i`-th. */
  ghost predicate StepsPlan(before: Db, db: Db, steps: seq<Step>, planned: seq<TaskId>) {
    |steps| == |planned|
    && forall i :: 0 <= i < |steps| ==>
         steps[i].PlanReplayStep? && steps[i].id == planned[i] && planned[i] !in before.tasks && planned[i] in db.tasks
  }

  class ParserRecoveryRepository {
    const database: Database
    const cfg: Config

    constructor (database: Database, cfg: Config)
      ensures this.database == database && this.cfg == cfg
    {
      this.database, this.cfg := database, cfg;
    }

    /** The candidate of each listing: a row on its newest snapshot and that snapshot's newest capture. */
    method Candidates(release: Hash, rows: seq<ReplayRow>, snapshots: map<int, Dated>, captures: map<int, Dated>) returns (picks: map<int, ReplayRow>)
      requires forall row :: row in rows ==> Joined(database.State(), release, row)
      ensures forall l :: l in picks ==> picks[l] in rows && picks[l].listing == l && OnNewest(database.State(), snapshots, captures, picks[l])
      ensures forall row :: row in rows && OnNewest(database.State(), snapshots, captures, row) ==> row.listing in picks
    {
      picks := map[];
      for i := 0 to |rows|
        invariant forall l :: l in picks ==> picks[l] in rows && picks[l].listing == l && OnNewest(database.State(), snapshots, captures, picks[l])
        invariant forall row :: row in rows[..i] && OnNewest(database.State(), snapshots, captures, row) ==> row.listing in picks
      {
        var row := rows[i];
        assert Joined(database.State(), release, row);
        if row.listing in snapshots && snapshots[row.listing].id == row.snapshot
           && row.listing in captures && captures[row.listing].id == database.results[row.origin].captureId {
          // every row of the listing that comes this far compares equal, so the first one stays
          if row.listing !in picks || Exceeds(database.results, database.captures, row, picks[row.listing]) {
            picks := picks[row.listing := row];
          }
        }
        assert rows[..i + 1] == rows[..i] + [row];
      }
      assert rows[..|rows|] == rows;
    }

    /** The task with this idempotency key, if any. */
    method Existing(key: IdempotencyKey) returns (found: bool)
      ensures found <==> HasReplay(database.State(), key)
    {
      found := false;
      var rest := database.tasks.Keys;
      while rest != {} && !found
        invariant rest <= database.tasks.Keys
        invariant found ==> HasReplay(database.State(), key)
        invariant !found ==> forall id :: id !in rest ==> !Q.HasKey(database.State(), key, id)
        decreases |rest|
      {
        assert (forall id :: id !in rest) ==> rest == {};
        var id :| id in rest;
        rest := rest - {id};
        found := database.tasks[id].key == key;
        assert found ==> Q.HasKey(database.State(), key, id);
      }
    }

    /** A UUID that no task has. */
    method FreshId() returns (id: TaskId)
      ensures id !in database.tasks
    {
      id := 0;
      var rest := database.tasks.Keys;
      while rest != {}
        invariant rest <= database.tasks.Keys && forall other :: other in database.tasks && other !in rest ==> other < id
        decreases |rest|
      {
        assert (forall other :: other !in rest) ==> rest == {};
        var other :| other in rest;
        rest := rest - {other};
        if other >= id {
          id := other + 1;
        }
      }
    }

    /** The task and the binding of one candidate. */
    method AddReplay(id: TaskId, source: Portal, release: Hash, epoch: int, row: ReplayRow, now: Time)
      requires database.Valid() && Joined(database.State(), release, row) && PointsAt(database.State(), source, release, epoch)
      requires id !in database.tasks && !HasReplay(database.State(), KeyOf(database.State(), source, release, row))
      modifies database
      ensures database.Valid()
      ensures database.State() == Q.PlanReplay(old(database.State()), id, source, release, epoch, row.origin, row.url, now).0
    {
      hide Intact;
      PlanIntact(cfg, database.State(), id, source, release, epoch, row.origin, row.url, now);
      var result := database.results[row.origin];
      var capture := database.captures[result.captureId];
      var key := ReplayKey(source, capture.contentHash, release);
      assert forall other :: !Q.HasKey(database.State(), key, other);
      database.tasks := database.tasks[id := Q.NewTask(source, capture.snapshotId, row.url, ArtifactRecovery, release, epoch, key, now)];
      database.bindings := database.bindings[id := Binding(result.captureId, capture.fetchedAt, result.expiresAt)];
    }

    /** `plan_artifact_recovery`, given what its three queries return.  It commits as one transaction, yet it is a
        run of single replay plans, each copying the capture and the expiry of the result it replays. */
    method PlanArtifactRecovery(source: Portal, release: Hash, epoch: int, snapshotRows: seq<Dated>, captureRows: seq<Dated>,
                                rows: seq<ReplayRow>, now: Time)
      returns (planned: seq<TaskId>, ghost steps: seq<Step>)
      requires database.Valid() && forall row :: row in rows ==> Joined(database.State(), release, row)
      modifies database
      ensures database.Valid() && database.State() == Run(cfg, old(database.State()), steps)
      ensures StepsPlan(old(database.State()), database.State(), steps, planned)
      ensures !PointsAt(old(database.State()), source, release, epoch) ==> planned == []
      ensures PointsAt(old(database.State()), source, release, epoch) ==>
                forall snapshots, captures :: NewestOf(snapshotRows, snapshots) && NewestOf(captureRows, captures) ==>
                  PlanOutcome(old(database.State()), database.State(), source, release, rows, snapshots, captures)
    {
      hide Intact, Q.PlanReplay, Apply, Covers, OnlyNeeded, Needed, KeyOf, HasReplay, Joined, NewestOf, OnNewest, PlanOutcome, OnlyAdds, Planned;
      planned, steps := [], [];
      if source !in database.pointers || database.pointers[source] != Pointer(release, epoch) {
        return;
      }
      ghost var before := database.State();
      var snapshots := Newest(snapshotRows);
      var captures := Newest(captureRows);
      var picks := Candidates(release, rows, snapshots, captures);
      planned, steps := PlanCandidates(source, release, epoch, picks, now);
      ConcludesForAll(before, database.State(), source, release, snapshotRows, captureRows, rows, snapshots, captures, picks);
    }

    /** The planning loop. */
    method PlanCandidates(source: Portal, release: Hash, epoch: int, picks: map<int, ReplayRow>, now: Time)
      returns (planned: seq<TaskId>, ghost steps: seq<Step>)
      requires database.Valid() && PointsAt(database.State(), source, release, epoch) && JoinedPicks(database.State(), release, picks)
      modifies database
      ensures database.Valid() && database.State() == Run(cfg, old(database.State()), steps)
      ensures StepsPlan(old(database.State()), database.State(), steps, planned)
      ensures OnlyAdds(old(database.State()), database.State())
      ensures Covers(old(database.State()), database.State(), source, release, picks, {})
      ensures OnlyNeeded(old(database.State()), database.State(), source, release, picks)
    {
      hide Intact, Q.PlanReplay, Apply, Covers, OnlyNeeded, Needed, KeyOf, HasReplay, Joined, OnlyAdds, Planned;
      planned, steps := [], [];
      ghost var before := database.State();
      var rest := picks.Keys;
      StartsCovered(before, source, release, picks);
      while rest != {}
        invariant rest <= picks.Keys && database.Valid() && database.State() == Run(cfg, before, steps)
        invariant OnlyAdds(before, database.State())
        invariant Covers(before, database.State(), source, release, picks, rest)
        invariant OnlyNeeded(before, database.State(), source, release, picks)
        invariant StepsPlan(before, database.State(), steps, planned)
        decreases |rest|
      {
        assert (forall l :: l !in rest) ==> rest == {};
        var l :| l in rest;
        ghost var mid := database.State();
        SameRow(before, mid, source, release, picks[l]);
        AddsMore(before, before, mid);
        var id := PlanCandidate(source, release, epoch, picks[l], now);
        CandidatePlanned(before, mid, database.State(), source, release, epoch, picks, rest, l, now, id);
        rest := rest - {l};
        if id.Some? {
          ghost var step := PlanReplayStep(id.value, source, release, epoch, picks[l].origin, picks[l].url, now);
          RunMore(cfg, before, steps, step);
          steps := steps + [step];
          planned := planned + [id.value];
        }
      }
    }

    /** The body of the planning loop: complete results of standing releases, and contents that already have their
        replay, are skipped. */
    method PlanCandidate(source: Portal, release: Hash, epoch: int, row: ReplayRow, now: Time) returns (id: Option<TaskId>)
      requires database.Valid() && Joined(database.State(), release, row) && PointsAt(database.State(), source, release, epoch)
      modifies database
      ensures database.Valid()
      ensures Planned(old(database.State()), database.State(), source, release, epoch, row, now, id)
    {
      hide Intact, Q.PlanReplay;
      ghost var db := database.State();
      var result := database.results[row.origin];
      if !row.missing && !database.releases[result.releaseHash].status.Revoked? {
        return None;
      }
      var found := Existing(ReplayKey(source, database.captures[result.captureId].contentHash, release));
      if found {
        return None;
      }
      var newId := FreshId();
      PlanAdds(db, newId, source, release, epoch, row, now);
      AddReplay(newId, source, release, epoch, row, now);
      assert Q.HasKey(database.State(), KeyOf(db, source, release, row), newId);
      id := Some(newId);
    }
  }

  lemma StartsCovered(before: Db, source: Portal, release: Hash, picks: map<int, ReplayRow>)
    requires JoinedPicks(before, release, picks)
    ensures Covers(before, before, source, release, picks, picks.Keys) && OnlyNeeded(before, before, source, release, picks)
    ensures OnlyAdds(before, before)
  {
  }

  // ----- what it means

  predicate AllNeeded(db: Db, release: Hash, rows: seq<ReplayRow>)
    requires forall row :: row in rows ==> Joined(db, release, row)
  {
    forall row :: row in rows ==> Needed(db, release, row)
  }

  /** While every row is needed, which contents have a replay task afterwards depends neither on the order of the
      rows nor on which of several results of a capture is taken: exactly those that had one, and those of the
      newest captures. */
  lemma PlansEveryContentOnce(before: Db, after: Db, source: Portal, release: Hash, rows: seq<ReplayRow>,
                              snapshots: map<int, Dated>, captures: map<int, Dated>, key: IdempotencyKey)
    requires forall row :: row in rows ==> Joined(before, release, row)
    requires PlanOutcome(before, after, source, release, rows, snapshots, captures) && AllNeeded(before, release, rows) && Intact(after)
    ensures HasReplay(after, key) <==>
              HasReplay(before, key)
              || exists row :: row in rows && OnNewest(before, snapshots, captures, row) && KeyOf(before, source, release, row) == key
    ensures forall id, other :: Q.HasKey(after, key, id) && Q.HasKey(after, key, other) ==> id == other
  {
    hide Fencing.Fenced, KeyOf, Needed;
    if HasReplay(after, key) {
      var id :| Q.HasKey(after, key, id);
      OneHolder(after, key, id);
      assert id in before.tasks ==> Q.HasKey(before, key, id);
    }
    if HasReplay(before, key) {
      var id :| Q.HasKey(before, key, id);
      assert Q.HasKey(after, key, id);
    }
  }

  /** Planning again on the same rows plans nothing: every needed content already has its task. */
  lemma PlanningAgainAddsNothing(before: Db, after: Db, again: Db, source: Portal, release: Hash, rows: seq<ReplayRow>,
                                 snapshots: map<int, Dated>, captures: map<int, Dated>)
    requires forall row :: row in rows ==> Joined(before, release, row) && Joined(after, release, row)
    requires OnlyAdds(before, after) && AllNeeded(before, release, rows) && Intact(again)
    requires PlanOutcome(before, after, source, release, rows, snapshots, captures)
    requires PlanOutcome(after, again, source, release, rows, snapshots, captures)
    ensures again.tasks == after.tasks
  {
    hide Fencing.Fenced, Needed;
    forall row | row in rows && OnNewest(after, snapshots, captures, row) ensures HasReplay(after, KeyOf(after, source, release, row)) {
      SameRow(before, after, source, release, row);
      assert ListingNeeded(before, release, rows, row.listing);
    }
    forall key, id | Q.HasKey(after, key, id) ensures Q.HasKey(again, key, id) {
    }
    forall id ensures id in again.tasks <==> id in after.tasks {
      assert id in again.tasks ==> Q.HasKey(again, again.tasks[id].key, id);
    }
    forall id | id in after.tasks ensures again.tasks[id] == after.tasks[id] {
    }
  }
}
