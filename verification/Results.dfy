/** Which results may be served, and when they are deleted, in every run. */
module Results {
  import opened Contracts
  import opened ScrapeQueue
  import opened Coordinator
  import opened Fencing
  import opened Changes
  import opened Frames
  import opened Fence
  import opened LeaseLife
  import opened Completion
  import opened Epochs
  import Calendar

  // ----- the invariant

  /** Release and epoch belong to one recorded activation of the portal. */
  predicate Recorded(db: Db, source: Portal, release: Hash, epoch: int) {
    var audits := AuditsOf(db, source);
    1 <= epoch <= |audits| && audits[epoch - 1].releaseHash == release && OwnedBy(db, release, source)
  }

  /** Two years after the capture. */
  predicate ExpiresWith(fetched: Calendar.Moment, expiresAt: Time) {
    var expiry := Calendar.TwoYearsAfter(fetched);
    expiry.Some? && expiresAt == Calendar.Instant(expiry.value)
  }

  predicate ResultSound(db: Db, id: TaskId)
    requires id in db.results
  {
    var r := db.results[id];
    id in db.tasks && db.tasks[id].state.Succeeded?
    && Recorded(db, db.tasks[id].source, r.releaseHash, r.activationEpoch)
    && r.captureId in db.captures && ExpiresWith(db.captures[r.captureId].fetchedAt, r.expiresAt)
  }

  /** A binding repeats the fetch time and the expiry of the capture that its replay reads. */
  predicate BindingSound(db: Db, id: TaskId)
    requires id in db.bindings
  {
    var b := db.bindings[id];
    b.captureId in db.captures && db.captures[b.captureId].fetchedAt == b.fetchedAt && ExpiresWith(b.fetchedAt, b.resultExpiresAt)
  }

  ghost predicate ResultsSound(db: Db) {
    (forall id :: id in db.results ==> ResultSound(db, id))
    && (forall id :: id in db.bindings ==> BindingSound(db, id))
  }

  // ----- preservation

  predicate CapturesGrow(db: Db, db': Db) {
    forall c :: c in db.captures ==> c in db'.captures && db'.captures[c] == db.captures[c]
  }

  lemma SucceededStays(db: Db, db': Db, id: TaskId)
    requires Advances(db, db') && id in db.tasks && db.tasks[id].state.Succeeded?
    ensures id in db'.tasks && db'.tasks[id] == db.tasks[id]
  {
    assert TaskAdvances(db.tasks[id], db'.tasks[id], db.issued);
  }

  lemma RecordedStays(db: Db, db': Db, source: Portal, release: Hash, epoch: int)
    requires ReleasesAdvance(db, db') && Recorded(db, source, release, epoch)
    ensures Recorded(db', source, release, epoch)
  {
    hide AuditsOf;
    assert AuditsOf(db, source) <= AuditsOf(db', source);
  }

  /** A row that is kept stays sound. */
  lemma KeptResult(db: Db, db': Db, id: TaskId)
    requires Advances(db, db') && ReleasesAdvance(db, db')
    requires id in db.results && ResultSound(db, id) && id in db'.results && db'.results[id] == db.results[id]
    requires var c := db.results[id].captureId; c in db'.captures && db'.captures[c] == db.captures[c]
    ensures ResultSound(db', id)
  {
    hide Advances, ReleasesAdvance, Recorded, ExpiresWith;
    SucceededStays(db, db', id);
    RecordedStays(db, db', db.tasks[id].source, db.results[id].releaseHash, db.results[id].activationEpoch);
  }

  lemma PointerRecorded(db: Db, source: Portal, release: Hash, epoch: int)
    requires ReleasesSound(db) && PointsAt(db, source, release, epoch)
    ensures Recorded(db, source, release, epoch)
  {
    SoundPortal(db, source);
    var audits := AuditsOf(db, source);
    assert OwnedBy(db, audits[|audits| - 1].releaseHash, source);
  }

  /** What an accepted capture or replay stores. */
  lemma Produced(cfg: Config, db: Db, c: Change)
    requires Permitted(cfg, db, c) && Producing(c)
    ensures var db' := Commit(cfg, db, c);
            c.id in db'.results && c.id in db'.tasks && c.id in db.tasks && CapturesGrow(db, db') && db'.tasks[c.id].state.Succeeded?
            && db'.tasks[c.id].source == db.tasks[c.id].source && !db.tasks[c.id].taskClass.DiscoveryCapture? && Current(db, c.id)
            && db'.results[c.id].releaseHash == db.tasks[c.id].releaseHash
            && db'.results[c.id].activationEpoch == db.tasks[c.id].activationEpoch
            && if c.CaptureAccepted?
               then c.outcome.captureId in db'.captures && db'.captures[c.outcome.captureId].fetchedAt == c.outcome.fetchedAt
                    && db'.results[c.id].captureId == c.outcome.captureId && db'.results[c.id].expiresAt == c.expiresAt
               else c.id in db.bindings && db'.results[c.id].captureId == db.bindings[c.id].captureId
                    && db'.results[c.id].expiresAt == db.bindings[c.id].resultExpiresAt
  {
    hide Permitted, Commit, ClosedAttempt, CaptureCode, OpenUnder, Calendar.TwoYearsAfter, Calendar.Instant;
    EndCommits(cfg, db, c);
    ProducedFrom(cfg, db, c);
  }

  lemma ProducedFrom(cfg: Config, db: Db, c: Change)
    requires Permitted(cfg, db, c) && Producing(c)
    ensures c.id in db.tasks && !db.tasks[c.id].taskClass.DiscoveryCapture? && Current(db, c.id)
  {
    hide Current, OpenUnder, Calendar.TwoYearsAfter, Calendar.Instant;
  }

  lemma ProducedExpiry(cfg: Config, db: Db, c: Change)
    requires Permitted(cfg, db, c) && c.CaptureAccepted?
    ensures ExpiresWith(c.outcome.fetchedAt, c.expiresAt)
  {
    hide Current, OpenUnder;
  }

  lemma ProducedSound(cfg: Config, db: Db, c: Change)
    requires ReleasesSound(db) && ResultsSound(db) && Permitted(cfg, db, c) && Producing(c)
    requires ReleasesAdvance(db, Commit(cfg, db, c))
    ensures ResultSound(Commit(cfg, db, c), c.id)
  {
    hide Permitted, Commit, ReleasesSound, ReleasesAdvance, Recorded, ExpiresWith;
    Produced(cfg, db, c);
    var t := db.tasks[c.id];
    PointerRecorded(db, t.source, t.releaseHash, t.activationEpoch);
    RecordedStays(db, Commit(cfg, db, c), t.source, t.releaseHash, t.activationEpoch);
    if c.CaptureAccepted? {
      ProducedExpiry(cfg, db, c);
    } else {
      assert BindingSound(db, c.id);
    }
  }

  lemma DiscoveryCaptures(cfg: Config, db: Db, c: Change)
    requires Permitted(cfg, db, c) && c.DiscoveryAccepted?
    ensures CapturesGrow(db, Commit(cfg, db, c)) && Commit(cfg, db, c).results == db.results
  {
    hide Permitted, Commit, SucceededTask, ClosedAttempt;
    EndCommits(cfg, db, c);
  }

  /** Captures only disappear in a purge. */
  lemma CapturesKept(cfg: Config, db: Db, c: Change)
    requires Permitted(cfg, db, c) && !c.ResultsPurged?
    ensures CapturesGrow(db, Commit(cfg, db, c))
  {
    hide Permitted, Commit, CapturesGrow;
    if Producing(c) {
      Produced(cfg, db, c);
    } else if c.DiscoveryAccepted? {
      DiscoveryCaptures(cfg, db, c);
    } else {
      ResultsKept(cfg, db, c);
      SameGrow(db, Commit(cfg, db, c));
    }
  }

  lemma SameGrow(db: Db, db': Db)
    requires SameResults(db, db')
    ensures CapturesGrow(db, db')
  {
  }

  lemma ChangeResults(cfg: Config, db: Db, c: Change)
    requires Fenced(db) && ReleasesSound(db) && ResultsSound(db) && Permitted(cfg, db, c) && !c.ResultsPurged?
    ensures ResultsSound(Commit(cfg, db, c))
  {
    hide Fenced, Advances, ReleasesSound, ReleasesAdvance, Permitted, Commit, ResultSound, BindingSound;
    var db' := Commit(cfg, db, c);
    ChangeFenced(cfg, db, c);
    ChangeReleases(cfg, db, c);
    ResultsAfter(cfg, db, c);
    CapturesKept(cfg, db, c);
    forall id | id in db'.results ensures ResultSound(db', id) {
      if Producing(c) && id == c.id {
        ProducedSound(cfg, db, c);
      } else {
        ResultCapture(db, id);
        KeptResult(db, db', id);
      }
    }
    forall id | id in db'.bindings ensures BindingSound(db', id) {
      if c.ReplayAdded? && id == c.id {
        AddedBinding(cfg, db, c);
      } else {
        OtherBinding(cfg, db, c, id);
        BindingKept(db, db', id);
      }
    }
  }

  lemma ResultCapture(db: Db, id: TaskId)
    requires id in db.results && ResultSound(db, id)
    ensures db.results[id].captureId in db.captures
  {
  }

  lemma BindingKept(db: Db, db': Db, id: TaskId)
    requires id in db.bindings && BindingSound(db, id) && CapturesGrow(db, db') && id in db'.bindings && db'.bindings[id] == db.bindings[id]
    ensures BindingSound(db', id)
  {
    hide ExpiresWith;
  }

  lemma OtherBinding(cfg: Config, db: Db, c: Change, id: TaskId)
    requires Permitted(cfg, db, c) && !c.ResultsPurged? && id in Commit(cfg, db, c).bindings && !(c.ReplayAdded? && id == c.id)
    ensures id in db.bindings && Commit(cfg, db, c).bindings[id] == db.bindings[id]
  {
    hide NewKey, BindingOf, Blank;
    if !c.ReplayAdded? {
      OtherBindings(cfg, db, c);
    }
  }

  lemma OtherBindings(cfg: Config, db: Db, c: Change)
    requires Permitted(cfg, db, c) && !c.ResultsPurged? && !c.ReplayAdded?
    ensures Commit(cfg, db, c).bindings == db.bindings
  {
    hide Permitted, Commit;
    BindingsKept(cfg, db, c);
  }

  lemma AddedBinding(cfg: Config, db: Db, c: Change)
    requires ResultsSound(db) && Permitted(cfg, db, c) && c.ReplayAdded? && c.id in Commit(cfg, db, c).bindings
    ensures BindingSound(Commit(cfg, db, c), c.id)
  {
    hide NewKey, Blank, ExpiresWith, Recorded;
    assert ResultSound(db, c.origin);
  }

  lemma PurgeResults(cfg: Config, db: Db, c: Change)
    requires ResultsSound(db) && Permitted(cfg, db, c) && c.ResultsPurged?
    ensures ResultsSound(Commit(cfg, db, c))
  {
    hide Permitted, Commit, ResultSound, BindingSound, Purge;
    RegistryCommits(cfg, db, c);
    var db' := Commit(cfg, db, c);
    PurgeRows(db, c.ids);
    forall id | id in db'.results ensures ResultSound(db', id) {
      PurgedResult(db, c.ids, id);
    }
    forall id | id in db'.bindings ensures BindingSound(db', id) {
      PurgedBinding(db, c.ids, id);
    }
  }

  lemma PurgedResult(db: Db, ids: set<TaskId>, id: TaskId)
    requires id in db.results && ResultSound(db, id) && id in Purge(db, ids).results
    ensures ResultSound(Purge(db, ids), id)
  {
    hide ExpiresWith, Recorded, Purge;
    PurgeRows(db, ids);
    PurgedRecord(db, ids, db.tasks[id].source, db.results[id].releaseHash, db.results[id].activationEpoch);
  }

  lemma PurgedBinding(db: Db, ids: set<TaskId>, id: TaskId)
    requires id in db.bindings && BindingSound(db, id) && id in Purge(db, ids).bindings
    ensures BindingSound(Purge(db, ids), id)
  {
    hide ExpiresWith, Purge;
    PurgeRows(db, ids);
  }

  lemma PurgedRecord(db: Db, ids: set<TaskId>, source: Portal, release: Hash, epoch: int)
    requires Recorded(db, source, release, epoch)
    ensures Recorded(Purge(db, ids), source, release, epoch)
  {
  }

  predicate KeepsCapture(db: Db, db': Db, c: CaptureId) {
    c in db.captures ==> c in db'.captures && db'.captures[c] == db.captures[c]
  }

  /** A purge drops a capture only with its last result. */
  lemma PurgeRows(db: Db, ids: set<TaskId>)
    ensures var db' := Purge(db, ids);
            db'.tasks == db.tasks
            && (forall id :: id in db'.results <==> id in db.results && id !in ids)
            && (forall id :: id in db'.results ==> db'.results[id] == db.results[id])
            && (forall id :: id in db'.results ==> KeepsCapture(db, db', db.results[id].captureId))
            && (forall id :: id in db'.bindings ==> id in db.bindings && db'.bindings[id] == db.bindings[id])
            && (forall id :: id in db'.bindings ==> KeepsCapture(db, db', db.bindings[id].captureId))
  {
  }

  lemma {:induction false} RunResults(cfg: Config, steps: seq<Step>)
    ensures var db := Run(cfg, EMPTY, steps); Fenced(db) && ReleasesSound(db) && ResultsSound(db)
    decreases |steps|
  {
    hide Fenced, ReleasesSound, ResultsSound, Apply, Permitted, Commit;
    if steps == [] {
      EmptyFenced();
      EmptyReleases();
      EmptyResults();
    } else {
      var n := |steps| - 1;
      RunResults(cfg, steps[..n]);
      var db := Run(cfg, EMPTY, steps[..n]);
      var c := StepCommits(cfg, db, steps[n]);
      ChangeFenced(cfg, db, c);
      ChangeReleases(cfg, db, c);
      if c.ResultsPurged? {
        PurgeResults(cfg, db, c);
      } else {
        ChangeResults(cfg, db, c);
      }
    }
  }

  lemma EmptyResults()
    ensures ResultsSound(EMPTY)
  {
  }

  // ----- what it means

  /** In every reachable database a stored result is served to its own listing exactly until it expires or
      its release is revoked: the join with the activation history never filters anything. */
  lemma ServableExactly(cfg: Config, steps: seq<Step>, source: Portal, snapshotId: int, now: Time, id: TaskId)
    requires id in Run(cfg, EMPTY, steps).results
    ensures var db := Run(cfg, EMPTY, steps);
            id in db.tasks
            && (Servable(db, source, snapshotId, now, id) <==>
                  db.tasks[id].source == source && db.tasks[id].snapshotId == snapshotId
                  && now < db.results[id].expiresAt && !IsRevoked(db, db.results[id].releaseHash))
  {
    hide Fenced, ReleasesSound, ExpiresWith, AuditsOf;
    RunResults(cfg, steps);
    var db := Run(cfg, EMPTY, steps);
    assert ResultSound(db, id);
    var r, t := db.results[id], db.tasks[id];
    SoundPortalChain(db, t.source);
    assert AuditsOf(db, t.source)[r.activationEpoch - 1].epoch == r.activationEpoch;
  }

  lemma SoundPortalChain(db: Db, source: Portal)
    requires ReleasesSound(db)
    ensures Chained(AuditsOf(db, source))
  {
    SoundPortal(db, source);
  }

  /** Every stored result, replays included, expires two years after the capture it came from. */
  lemma ExpiresTwoYearsAfterCapture(cfg: Config, steps: seq<Step>, id: TaskId)
    requires id in Run(cfg, EMPTY, steps).results
    ensures var db := Run(cfg, EMPTY, steps);
            var r := db.results[id];
            r.captureId in db.captures && ExpiresWith(db.captures[r.captureId].fetchedAt, r.expiresAt)
  {
    hide Fenced, ReleasesSound, ExpiresWith, Recorded;
    RunResults(cfg, steps);
    assert ResultSound(Run(cfg, EMPTY, steps), id);
  }

  /** The daily purge deletes no result that could still be served, as long as each purged capture is
      either stamped in UTC or not in the boundary case where its own zone gives it a longer life. */
  lemma PurgeDeletesNothingServable(cfg: Config, steps: seq<Step>, today: Calendar.Moment, id: TaskId, utc: Calendar.Moment,
                                    source: Portal, snapshotId: int, later: Time)
    requires id in Run(cfg, EMPTY, steps).results && PurgeRow(Run(cfg, EMPTY, steps), today, id)
    requires Calendar.ValidMoment(today) && today.offset == 0 && Calendar.Instant(today) <= later
    requires var db := Run(cfg, EMPTY, steps);
             var fetched := db.captures[db.results[id].captureId].fetchedAt;
             Calendar.SameInstant(fetched, utc) && !Calendar.OutlivesItsCutoff(fetched, utc)
    ensures !Servable(Run(cfg, EMPTY, steps), source, snapshotId, later, id)
  {
    hide Fenced, ReleasesSound, Recorded, AuditsOf;
    RunResults(cfg, steps);
    var db := Run(cfg, EMPTY, steps);
    assert ResultSound(db, id);
    var fetched := db.captures[db.results[id].captureId].fetchedAt;
    Calendar.PurgedOnTime(fetched, utc, today);
  }
}
