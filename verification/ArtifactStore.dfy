/** The encrypted artifact store: rows and tombstones in a database, ciphertext in files, and processes that
    may stop at any moment between the two. */
module ArtifactStore {
  import opened Sets
  import opened Options

  const RETENTION := 30 * 86_400_000_000   // microseconds
  const SAMPLES := 5

  type ArtifactId = int
  type ProcessId = int
  type Time = int

  datatype Kind = Diagnostic | Sample(variant: string, structure: string)
  datatype Row = Row(source: string, contentHash: string, fetchedAt: Time, expiresAt: Time, kind: Kind)

  /** An insert whose file is written and whose transaction is still open: its process holds the write lock. */
  datatype Pending = Pending(process: ProcessId, id: ArtifactId, row: Row)

  /** The database, the object directory, and what is only remembered for statements: every identifier drawn,
      the captures merged into each row, and the files whose process stopped before its commit. */
  datatype Store = Store(
    rows: map<ArtifactId, Row>, tombstones: set<ArtifactId>, files: set<ArtifactId>, pending: Option<Pending>,
    issued: set<ArtifactId>, merged: map<ArtifactId, set<Time>>, orphans: set<ArtifactId>)

  const EMPTY := Store(map[], {}, {}, None, {}, map[], {})

  /** What one process does between two points at which it may be interrupted or overtaken. */
  datatype Event =
    | WriteFile(process: ProcessId, id: ArtifactId, source: string, contentHash: string, fetchedAt: Time, kind: Kind, now: Time)
    | CommitRow(process: ProcessId)
    | Abandon(process: ProcessId, crashed: bool)
    | Merge(process: ProcessId, id: ArtifactId, fetchedAt: Time, sample: bool, now: Time)
    | Shred(process: ProcessId, id: ArtifactId, now: Time)
    | Unlink(process: ProcessId, id: ArtifactId)
    | Reject(process: ProcessId, id: ArtifactId, now: Time)

  predicate SameContent(r: Row, source: string, contentHash: string) {
    r.source == source && r.contentHash == contentHash
  }

  predicate Holds(s: Store, source: string, contentHash: string) {
    exists id :: id in s.rows && SameContent(s.rows[id], source, contentHash)
  }

  predicate IsSample(r: Row, source: string, variant: string) {
    r.source == source && r.kind.Sample? && r.kind.variant == variant
  }

  function Samples(s: Store, source: string, variant: string): set<ArtifactId> {
    set id | id in s.rows && IsSample(s.rows[id], source, variant)
  }

  /** A new sample is admitted while its variant has fewer than five, none with its structure. */
  predicate Admits(s: Store, source: string, kind: Kind) {
    kind.Sample? ==>
      |Samples(s, source, kind.variant)| < SAMPLES
      && forall id :: id in Samples(s, source, kind.variant) ==> s.rows[id].kind.structure != kind.structure
  }

  /** The variant has five samples, or one of this structure. */
  predicate TurnedAway(s: Store, source: string, kind: Kind) {
    kind.Sample?
    && ((exists id :: id in s.rows && s.rows[id].source == source && s.rows[id].kind == kind)
        || |Samples(s, source, kind.variant)| >= 5)
  }

  lemma AdmitsExactly(s: Store, source: string, kind: Kind)
    ensures Admits(s, source, kind) <==> !TurnedAway(s, source, kind)
  {
    if kind.Sample? {
      if id: ArtifactId :| id in s.rows && s.rows[id].source == source && s.rows[id].kind == kind {
        assert id in Samples(s, source, kind.variant);
      }
      if id: ArtifactId :| id in Samples(s, source, kind.variant) && s.rows[id].kind.structure == kind.structure {
        assert s.rows[id].kind == kind;
      }
    }
  }

  /** The capture a store accepts: not expired, not from the future. */
  predicate Acceptable(fetchedAt: Time, now: Time) {
    fetchedAt <= now < fetchedAt + RETENTION
  }

  function MergedRow(r: Row, fetchedAt: Time, sample: bool): Row {
    var kept := if sample then r else r.(kind := Diagnostic);
    if fetchedAt + RETENTION < r.expiresAt then kept.(fetchedAt := fetchedAt, expiresAt := fetchedAt + RETENTION) else kept
  }

  /** One event; it happens only where the code has checked its condition under the write lock. */
  function Next(s: Store, e: Event): Store {
    match e
    case WriteFile(process, id, source, contentHash, fetchedAt, kind, now) =>
      if s.pending.None? && id !in s.issued && !Holds(s, source, contentHash) && Admits(s, source, kind) && Acceptable(fetchedAt, now)
      then s.(files := s.files + {id}, issued := s.issued + {id},
              pending := Some(Pending(process, id, Row(source, contentHash, fetchedAt, fetchedAt + RETENTION, kind))))
      else s
    case CommitRow(process) =>
      if s.pending.Some? && s.pending.value.process == process
      then Inserted(s, s.pending.value)
      else s
    case Abandon(process, crashed) =>
      if s.pending.Some? && s.pending.value.process == process
      then (if crashed then s.(pending := None, orphans := s.orphans + {s.pending.value.id})
            else s.(pending := None, files := s.files - {s.pending.value.id}))
      else s
    case Merge(process, id, fetchedAt, sample, now) =>
      if s.pending.None? && id in s.rows && s.rows[id].expiresAt > now && Acceptable(fetchedAt, now)
      then s.(rows := s.rows[id := MergedRow(s.rows[id], fetchedAt, sample)],
              merged := s.merged[id := MergedInto(s, id) + {fetchedAt}])
      else s
    case Shred(process, id, now) =>
      if s.pending.None? && id in s.rows
      then s.(rows := s.rows - {id}, tombstones := s.tombstones + {id})
      else s
    case Unlink(process, id) => if id in s.tombstones then s.(files := s.files - {id}) else s
    case Reject(process, id, now) =>
      if s.pending.None? && id in s.rows && s.rows[id].expiresAt > now
      then s.(rows := s.rows[id := s.rows[id].(kind := Diagnostic)])
      else s
  }

  function Inserted(s: Store, p: Pending): Store {
    s.(rows := s.rows[p.id := p.row], pending := None, merged := s.merged[p.id := {p.row.fetchedAt}])
  }

  function MergedInto(s: Store, id: ArtifactId): set<Time> {
    if id in s.merged then s.merged[id] else {}
  }

  function Run(s: Store, events: seq<Event>): Store
    decreases |events|
  {
    if events == [] then s else Next(Run(s, events[..|events| - 1]), events[|events| - 1])
  }

  // ----- what holds whatever stops or overtakes whatever

  predicate UniqueContent(s: Store) {
    forall i, j :: i in s.rows && j in s.rows && SameContent(s.rows[i], s.rows[j].source, s.rows[j].contentHash) ==> i == j
  }

  predicate SameStructure(r: Row, q: Row) {
    r.source == q.source && r.kind.Sample? && r.kind == q.kind
  }

  predicate DistinctSamples(s: Store) {
    forall i, j :: i in s.rows && j in s.rows && SameStructure(s.rows[i], s.rows[j]) ==> i == j
  }

  ghost predicate FewSamples(s: Store) {
    forall source, variant :: |Samples(s, source, variant)| <= SAMPLES
  }

  /** A row expires thirty days after the oldest capture merged into it. */
  predicate OldestMerged(s: Store, id: ArtifactId)
    requires id in s.rows
  {
    var r := s.rows[id];
    r.expiresAt == r.fetchedAt + RETENTION
    && id in s.merged && r.fetchedAt in s.merged[id] && forall at :: at in s.merged[id] ==> r.fetchedAt <= at
  }

  /** What the open transaction checked still holds: nothing changes while it has the lock. */
  predicate PendingSound(s: Store) {
    s.pending.Some? ==>
      var p := s.pending.value;
      p.id in s.files && p.id !in s.rows && p.id !in s.tombstones && p.id !in s.orphans && p.id in s.issued
      && !Holds(s, p.row.source, p.row.contentHash) && Admits(s, p.row.source, p.row.kind)
      && p.row.expiresAt == p.row.fetchedAt + RETENTION
  }

  ghost predicate Sound(s: Store) {
    s.rows.Keys <= s.files && s.rows.Keys !! s.tombstones && s.rows.Keys !! s.orphans && s.tombstones !! s.orphans
    && s.files <= s.issued && s.tombstones <= s.issued && s.orphans <= s.files
    && (forall id :: id in s.files ==>
          id in s.rows || id in s.tombstones || id in s.orphans || (s.pending.Some? && s.pending.value.id == id))
    && UniqueContent(s) && DistinctSamples(s) && FewSamples(s)
    && (forall id :: id in s.rows ==> OldestMerged(s, id))
    && PendingSound(s)
  }

  /** Tombstones stay, rows only leave by being tombstoned, and an expiry never moves later. */
  predicate Ages(s: Store, t: Store) {
    s.tombstones <= t.tombstones && s.issued <= t.issued && s.orphans <= t.orphans
    && (forall id :: id in s.rows && id !in t.tombstones ==> id in t.rows && Younger(t.rows[id], s.rows[id]))
    && (forall id :: id in t.rows && id !in s.rows ==> id !in s.tombstones && (id in s.issued ==> s.pending.Some? && s.pending.value.id == id))
  }

  /** The same content, expiring no later. */
  predicate Younger(t: Row, r: Row) {
    SameContent(t, r.source, r.contentHash) && t.expiresAt <= r.expiresAt
  }

  /** Rows that keep or lose their sample role leave every variant with no more samples than before. */
  lemma NoMoreSamples(s: Store, t: Store)
    requires FewSamples(s) && DistinctSamples(s)
    requires forall id :: id in t.rows ==> id in s.rows && t.rows[id].source == s.rows[id].source
                                           && (t.rows[id].kind == s.rows[id].kind || t.rows[id].kind.Diagnostic?)
    ensures FewSamples(t) && DistinctSamples(t)
    ensures forall source, kind :: Admits(s, source, kind) ==> Admits(t, source, kind)
  {
    forall source, variant ensures Samples(t, source, variant) <= Samples(s, source, variant)
                                   && |Samples(t, source, variant)| <= |Samples(s, source, variant)|
    {
      forall id | id in Samples(t, source, variant) ensures id in Samples(s, source, variant) {
        assert IsSample(s.rows[id], source, variant);
      }
      SubsetSize(Samples(t, source, variant), Samples(s, source, variant));
    }
  }

  /** One new sample was admitted. */
  lemma OneMoreSample(s: Store, id: ArtifactId, row: Row)
    requires FewSamples(s) && DistinctSamples(s) && id !in s.rows && Admits(s, row.source, row.kind)
    ensures var t := s.(rows := s.rows[id := row]); FewSamples(t) && DistinctSamples(t)
  {
    hide Samples, IsSample, SameStructure;
    var t := s.(rows := s.rows[id := row]);
    forall source, variant ensures |Samples(t, source, variant)| <= SAMPLES {
      SamplesWith(s, id, row, source, variant);
    }
    NewStructure(s, row);
    OneMoreStructure(s, id, row);
  }

  lemma SamplesWith(s: Store, id: ArtifactId, row: Row, source: string, variant: string)
    requires id !in s.rows
    ensures Samples(s.(rows := s.rows[id := row]), source, variant)
            == Samples(s, source, variant) + (if IsSample(row, source, variant) then {id} else {})
    ensures id !in Samples(s, source, variant)
    ensures IsSample(row, source, variant) ==> row.kind.Sample? && row.source == source && row.kind.variant == variant
  {
  }

  lemma OneMoreStructure(s: Store, id: ArtifactId, row: Row)
    requires DistinctSamples(s) && id !in s.rows && forall i :: i in s.rows ==> !SameStructure(s.rows[i], row)
    ensures DistinctSamples(s.(rows := s.rows[id := row]))
  {
  }

  /** No admitted sample has the structure of one that is already there. */
  lemma NewStructure(s: Store, row: Row)
    requires Admits(s, row.source, row.kind)
    ensures forall i :: i in s.rows ==> !SameStructure(s.rows[i], row)
  {
    forall i | i in s.rows ensures !SameStructure(s.rows[i], row) {
      if row.kind.Sample? {
        assert i in Samples(s, row.source, row.kind.variant) <==> IsSample(s.rows[i], row.source, row.kind.variant);
      }
    }
  }

  lemma WriteSound(s: Store, e: Event)
    requires Sound(s) && e.WriteFile?
    ensures Sound(Next(s, e)) && Ages(s, Next(s, e))
  {
    hide Admits;
    var t := Next(s, e);
    if t != s {
      SameRows(s, t);
      assert e.id !in s.rows;
    }
  }

  /** The properties of rows alone. */
  lemma SameRows(s: Store, t: Store)
    requires t.rows == s.rows && t.merged == s.merged
    ensures UniqueContent(s) ==> UniqueContent(t)
    ensures DistinctSamples(s) ==> DistinctSamples(t)
    ensures FewSamples(s) ==> FewSamples(t)
    ensures forall id :: id in s.rows && OldestMerged(s, id) ==> OldestMerged(t, id)
    ensures forall source, hash :: Holds(t, source, hash) <==> Holds(s, source, hash)
    ensures forall source, kind :: Admits(t, source, kind) <==> Admits(s, source, kind)
  {
    assert forall source, variant :: Samples(t, source, variant) == Samples(s, source, variant);
  }

  lemma CommitSound(s: Store, e: Event)
    requires Sound(s) && e.CommitRow?
    ensures Sound(Next(s, e)) && Ages(s, Next(s, e))
  {
    hide Admits, FewSamples, DistinctSamples;
    var t := Next(s, e);
    if t != s {
      var p := s.pending.value;
      OneMoreSample(s, p.id, p.row);
      SameRows(s.(rows := s.rows[p.id := p.row]), t.(merged := s.merged));
      SameSamples(t.(merged := s.merged), t);
      assert forall i :: i in s.rows ==> !SameContent(s.rows[i], p.row.source, p.row.contentHash);
      forall id | id in t.rows ensures OldestMerged(t, id) {
        assert id != p.id ==> OldestMerged(s, id);
      }
    }
  }

  lemma SameSamples(s: Store, t: Store)
    requires t.rows == s.rows
    ensures (DistinctSamples(s) ==> DistinctSamples(t)) && (FewSamples(s) ==> FewSamples(t))
  {
    assert forall source, variant :: Samples(t, source, variant) == Samples(s, source, variant);
  }

  lemma AbandonSound(s: Store, e: Event)
    requires Sound(s) && e.Abandon?
    ensures Sound(Next(s, e)) && Ages(s, Next(s, e))
  {
    hide Admits, FewSamples, DistinctSamples;
    SameRows(s, Next(s, e));
  }

  lemma MergeSound(s: Store, e: Event)
    requires Sound(s) && (e.Merge? || e.Reject?)
    ensures Sound(Next(s, e)) && Ages(s, Next(s, e))
  {
    hide FewSamples, DistinctSamples, Admits;
    var t := Next(s, e);
    if t != s {
      NoMoreSamples(s, t);
      forall id | id in t.rows ensures OldestMerged(t, id) && Younger(t.rows[id], s.rows[id]) {
        assert OldestMerged(s, id);
      }
      assert t.rows.Keys == s.rows.Keys;
    }
  }

  lemma ShredSound(s: Store, e: Event)
    requires Sound(s) && e.Shred?
    ensures Sound(Next(s, e)) && Ages(s, Next(s, e))
  {
    hide FewSamples, DistinctSamples, Admits;
    var t := Next(s, e);
    if t != s {
      NoMoreSamples(s, t);
      forall id | id in t.rows ensures OldestMerged(t, id) {
        assert OldestMerged(s, id);
      }
    }
  }

  lemma UnlinkSound(s: Store, e: Event)
    requires Sound(s) && e.Unlink?
    ensures Sound(Next(s, e)) && Ages(s, Next(s, e))
  {
    hide FewSamples, DistinctSamples, Admits;
    SameRows(s, Next(s, e));
  }

  lemma NextSound(s: Store, e: Event)
    requires Sound(s)
    ensures Sound(Next(s, e)) && Ages(s, Next(s, e))
  {
    hide Sound, Ages, Next;
    match e
    case WriteFile(_, _, _, _, _, _, _) => WriteSound(s, e);
    case CommitRow(_) => CommitSound(s, e);
    case Abandon(_, _) => AbandonSound(s, e);
    case Merge(_, _, _, _, _) => MergeSound(s, e);
    case Shred(_, _, _) => ShredSound(s, e);
    case Unlink(_, _) => UnlinkSound(s, e);
    case Reject(_, _, _) => MergeSound(s, e);
  }

  // ----- runs

  /** `Ages` over any number of events. */
  predicate Later(s: Store, t: Store) {
    s.tombstones <= t.tombstones && s.issued <= t.issued && s.orphans <= t.orphans
    && (forall id :: id in s.rows && id !in t.tombstones ==> id in t.rows && Younger(t.rows[id], s.rows[id]))
    && (forall id :: id in t.rows && id !in s.rows && id in s.issued ==> s.pending.Some? && s.pending.value.id == id)
    && (t.pending.Some? && t.pending.value.id in s.issued ==> t.pending == s.pending)
  }

  lemma NextLater(s: Store, e: Event)
    requires Sound(s)
    ensures Later(s, Next(s, e))
  {
    hide Sound;
    NextSound(s, e);
    NextPending(s, e);
  }

  lemma NextPending(s: Store, e: Event)
    ensures var t := Next(s, e); t.pending.Some? && t.pending.value.id in s.issued ==> t.pending == s.pending
  {
  }

  lemma LaterTransitive(s: Store, t: Store, u: Store)
    requires Later(s, t) && Later(t, u) && s.rows.Keys !! s.tombstones && t.rows.Keys !! t.tombstones && u.rows.Keys !! u.tombstones
    ensures Later(s, u)
  {
    forall id | id in u.rows && id !in s.rows && id in s.issued ensures s.pending.Some? && s.pending.value.id == id {
      if id !in t.rows {
        assert t.pending.Some? && t.pending.value.id == id;
      }
    }
    forall id | id in s.rows && id !in u.tombstones ensures id in u.rows && Younger(u.rows[id], s.rows[id]) {
      assert id !in t.tombstones;
    }
  }

  lemma LiveIsNotTombstoned(s: Store)
    requires Sound(s)
    ensures s.rows.Keys !! s.tombstones
  {
  }

  /** Every interleaving of any processes, each of which may stop between any two of its events. */
  lemma {:induction false} RunSound(s: Store, events: seq<Event>)
    requires Sound(s)
    ensures Sound(Run(s, events)) && Later(s, Run(s, events))
    decreases |events|
  {
    hide Sound, Later, Next;
    if events == [] {
      LaterReflexive(s);
    } else {
      var n := |events| - 1;
      var mid := Run(s, events[..n]);
      RunSound(s, events[..n]);
      NextSound(mid, events[n]);
      NextLater(mid, events[n]);
      LiveIsNotTombstoned(s);
      LiveIsNotTombstoned(mid);
      LiveIsNotTombstoned(Next(mid, events[n]));
      LaterTransitive(s, mid, Next(mid, events[n]));
    }
  }

  lemma LaterReflexive(s: Store)
    ensures Later(s, s)
  {
  }

  lemma EmptySound()
    ensures Sound(EMPTY)
  {
    assert forall source, variant :: Samples(EMPTY, source, variant) == {};
  }

  /** At every moment, wherever processes stop: each live row has its file, no identifier is both live and
      tombstoned, content is unique among live rows, each variant keeps at most five samples of different
      structure, and each row expires thirty days after the oldest capture ever merged into it.  A file without
      a row belongs to a tombstone, to an open transaction, or to a process that stopped before its commit. */
  lemma CrashSafe(events: seq<Event>)
    ensures var s := Run(EMPTY, events);
            s.rows.Keys <= s.files && s.rows.Keys !! s.tombstones && UniqueContent(s)
            && DistinctSamples(s) && FewSamples(s)
            && (forall id :: id in s.rows ==> OldestMerged(s, id))
            && forall id :: id in s.files ==>
                 id in s.rows || id in s.tombstones || id in s.orphans || (s.pending.Some? && s.pending.value.id == id)
  {
    hide FewSamples, DistinctSamples;
    EmptySound();
    RunSound(EMPTY, events);
  }

  /** Once removed, an artifact never comes back, and no later event moves an expiry further away. */
  lemma RemovedForGood(before: seq<Event>, after: seq<Event>, id: ArtifactId)
    ensures var s := Run(EMPTY, before);
            var t := Run(s, after);
            (id in s.tombstones ==> id in t.tombstones && id !in t.rows)
            && (id in s.rows && id in t.rows ==> t.rows[id].expiresAt <= s.rows[id].expiresAt)
  {
    hide FewSamples, DistinctSamples;
    EmptySound();
    RunSound(EMPTY, before);
    RunSound(Run(EMPTY, before), after);
  }

  /** The file of a store that stopped before its commit stays: in every continuation it is neither a row's nor a
      tombstone's, and no process ever removes it. */
  lemma OrphanFilesStay(before: seq<Event>, after: seq<Event>, id: ArtifactId)
    requires id in Run(EMPTY, before).orphans
    ensures var t := Run(Run(EMPTY, before), after);
            id in t.orphans && id in t.files && id !in t.rows && id !in t.tombstones
  {
    hide FewSamples, DistinctSamples;
    EmptySound();
    RunSound(EMPTY, before);
    RunSound(Run(EMPTY, before), after);
  }

  /** Two events are enough: a file written, and its process stopped. */
  lemma OneOrphan(row: Row, now: Time)
    requires row.kind.Diagnostic? && Acceptable(row.fetchedAt, now)
    ensures var events := [WriteFile(7, 1, row.source, row.contentHash, row.fetchedAt, row.kind, now), Abandon(7, true)];
            1 in Run(EMPTY, events).orphans
  {
    var events := [WriteFile(7, 1, row.source, row.contentHash, row.fetchedAt, row.kind, now), Abandon(7, true)];
    assert events[..1][..0] == [] && events[..|events| - 1] == events[..1];
    assert Run(EMPTY, events[..1]) == Next(EMPTY, events[0]);
    assert Run(EMPTY, events) == Next(Run(EMPTY, events[..1]), events[1]);
  }

  /** At the i-th event a process stops with this identifier's file written and its transaction open. */
  predicate CrashesAt(events: seq<Event>, i: nat, id: ArtifactId)
    requires i < |events|
  {
    var s := Run(EMPTY, events[..i]);
    events[i].Abandon? && events[i].crashed
    && s.pending.Some? && s.pending.value.process == events[i].process && s.pending.value.id == id
  }

  /** An orphan is exactly what such a crash leaves. */
  lemma {:induction false} OrphansExactly(events: seq<Event>, id: ArtifactId)
    ensures id in Run(EMPTY, events).orphans <==> exists i: nat :: i < |events| && CrashesAt(events, i, id)
    decreases |events|
  {
    if events != [] {
      var n := |events| - 1;
      var before := events[..n];
      OrphansExactly(before, id);
      forall i: nat | i < n ensures CrashesAt(events, i, id) <==> CrashesAt(before, i, id) {
        assert events[..i] == before[..i];
      }
      NextOrphans(Run(EMPTY, before), events[n], id);
      hide Next;
      if CrashesAt(events, n, id) {
        assert id in Run(EMPTY, events).orphans;
      }
    }
  }

  lemma NextOrphans(s: Store, e: Event, id: ArtifactId)
    ensures id in Next(s, e).orphans <==>
              id in s.orphans
              || (e.Abandon? && e.crashed && s.pending.Some? && s.pending.value.process == e.process && s.pending.value.id == id)
  {
  }

  // ----- one process among the others

  /** Stores and merges whose clock was read no earlier than `floor`. */
  predicate ReadsFrom(e: Event, floor: Time) {
    (e.WriteFile? || e.Merge?) ==> floor <= e.now
  }

  /** Rows that were not there before with the same expiry expire after `floor`. */
  predicate NewOnlyAfter(before: map<ArtifactId, Row>, after: map<ArtifactId, Row>, floor: Time) {
    forall id :: id in after ==> after[id].expiresAt > floor || (id in before && after[id].expiresAt == before[id].expiresAt)
  }

  lemma NextNewer(s: Store, e: Event, floor: Time)
    requires ReadsFrom(e, floor) && (s.pending.Some? ==> s.pending.value.row.expiresAt > floor)
    ensures NewOnlyAfter(s.rows, Next(s, e).rows, floor)
    ensures Next(s, e).pending.Some? ==> Next(s, e).pending.value.row.expiresAt > floor
  {
  }

  class EncryptedArtifactStore {
    const self: ProcessId
    var rows: map<ArtifactId, Row>
    var tombstones: set<ArtifactId>
    var files: set<ArtifactId>
    var pending: Option<Pending>
    var issued: set<ArtifactId>
    var merged: map<ArtifactId, set<Time>>
    var orphans: set<ArtifactId>

    ghost function State(): Store
      reads this
    {
      Store(rows, tombstones, files, pending, issued, merged, orphans)
    }

    /** Between calls this process holds no lock. */
    ghost predicate Valid()
      reads this
    {
      Sound(State()) && pending.None?
    }

    constructor (self: ProcessId)
      ensures Valid() && this.self == self && State() == EMPTY
    {
      this.self := self;
      rows, tombstones, files, pending, issued, merged, orphans := map[], {}, {}, None, {}, map[], {};
      new;
      EmptySound();
    }

    /** Any event, on the real tables and files. */
    method Perform(e: Event)
      requires Sound(State())
      modifies this
      ensures State() == Next(old(State()), e)
      ensures Sound(State()) && Later(old(State()), State())
    {
      NextSound(State(), e);
      NextLater(State(), e);
      var next := Next(Store(rows, tombstones, files, pending, issued, merged, orphans), e);
      rows, tombstones, files, pending := next.rows, next.tombstones, next.files, next.pending;
      issued, merged, orphans := next.issued, next.merged, next.orphans;
    }

    /** Wherever this process does not hold the lock the others may do anything, any number of times; this
        process goes on once the lock is free.  Stores that read their clocks before `floor` are counted: no more
        than `late` of them overtake this process, and `left` tells how many of those are still to come. */
    method Others(late: nat, floor: Time) returns (left: nat)
      requires Valid()
      modifies this
      ensures Valid() && Later(old(State()), State()) && left <= late
      ensures left == late ==> NewOnlyAfter(old(rows), rows, floor)
    {
      hide Sound, Later, Next;
      LaterReflexive(State());
      LiveIsNotTombstoned(State());
      left := late;
      var events: seq<Event> := *;
      for i := 0 to |events|
        invariant Sound(State()) && Later(old(State()), State()) && left <= late
        invariant pending.Some? ==> pending.value.process != self
        invariant left == late ==> NewOnlyAfter(old(rows), rows, floor)
        invariant left == late && pending.Some? ==> pending.value.row.expiresAt > floor
      {
        if events[i].process != self {
          if ReadsFrom(events[i], floor) {
            Overtake(events[i], left == late, floor);
          } else if left > 0 {
            Overtake(events[i], false, floor);
            left := left - 1;
          }
        }
      }
      if pending.Some? {
        var committed: bool := *;
        var crashed: bool := *;
        ReleasesLock(State(), pending.value.process, crashed);
        Overtake(if committed then CommitRow(pending.value.process) else Abandon(pending.value.process, crashed), left == late, floor);
      }
    }

    /** One event of another process; `onTime` if no late store has overtaken yet. */
    method Overtake(e: Event, onTime: bool, floor: Time)
      requires Sound(State()) && e.process != self && (onTime ==> ReadsFrom(e, floor))
      requires pending.Some? ==> pending.value.process != self
      requires onTime && pending.Some? ==> pending.value.row.expiresAt > floor
      modifies this
      ensures State() == Next(old(State()), e) && Sound(State())
      ensures forall start :: Later(start, old(State())) && start.rows.Keys !! start.tombstones ==> Later(start, State())
      ensures pending.Some? ==> pending.value.process != self
      ensures onTime && pending.Some? ==> pending.value.row.expiresAt > floor
      ensures onTime ==> forall start :: NewOnlyAfter(start, old(rows), floor) ==> NewOnlyAfter(start, rows, floor)
    {
      ghost var s := State();
      if onTime {
        NextNewer(s, e, floor);
      }
      Perform(e);
      LiveIsNotTombstoned(s);
      LiveIsNotTombstoned(State());
      forall start | Later(start, s) && start.rows.Keys !! start.tombstones ensures Later(start, State()) {
        LaterTransitive(start, s, State());
      }
    }

    /** `_shred`: the deletion is committed before the file goes; the lock is free from the commit on. */
    method ShredRow(id: ArtifactId, now: Time, late: nat) returns (left: nat)
      requires Valid() && (id in rows || id in tombstones)
      modifies this
      ensures Valid() && Later(old(State()), State()) && id in tombstones && left <= late
      ensures left == late ==> NewOnlyAfter(old(rows), rows, now)
    {
      hide Sound, Later;
      ghost var s0 := State();
      Perform(Shred(self, id, now));
      ghost var s1 := State();
      left := Others(late, now);
      ghost var s2 := State();
      Tombstoned(s1, s2, id);
      Perform(Unlink(self, id));
      ghost var s3 := State();
      left := Others(left, now);
      Tombstoned(s3, State(), id);
      Chain(s0, s1, s2);
      Chain(s0, s2, s3);
      Chain(s0, s3, State());
    }

    /** The ids whose rows have expired, as the bulk query finds them. */
    method SelectExpired(now: Time) returns (ids: seq<ArtifactId>)
      ensures forall id :: id in ids <==> id in rows && rows[id].expiresAt <= now
    {
      ids := [];
      var rest := rows.Keys;
      while rest != {}
        invariant rest <= rows.Keys
        invariant forall id :: id in ids <==> id in rows && id !in rest && rows[id].expiresAt <= now
        decreases |rest|
      {
        assert (forall id :: id !in rest) ==> rest == {};
        var id :| id in rest;
        rest := rest - {id};
        if rows[id].expiresAt <= now {
          ids := ids + [id];
        }
      }
    }

    /** `expire`: however often it is overtaken or whoever stopped before, when it completes no file of a
        tombstoned artifact is left; and no row has expired at its clock reading unless a store that overtook
        it had read its own clock earlier. */
    method Expire(now: Time, late: nat) returns (ids: seq<ArtifactId>, left: nat)
      requires Valid()
      modifies this
      ensures Valid() && Later(old(State()), State())
      ensures forall id :: id in tombstones ==> id !in files
      ensures forall id :: id in ids ==> id in tombstones
      ensures forall id :: id in old(rows) && old(rows)[id].expiresAt <= now ==> id in tombstones
      ensures left <= late && (left == late ==> forall id :: id in rows ==> rows[id].expiresAt > now)
    {
      hide Sound, Later;
      ghost var start := State();
      left := Others(late, now);
      ids := SelectExpired(now);
      LaterReflexive(State());
      ghost var selected := State();
      StillExpired(start, selected, now);
      var rest := ids;
      while rest != []
        invariant Valid() && Later(selected, State()) && left <= late
        invariant forall id :: id in rest ==> id in ids && (id in rows || id in tombstones)
        invariant forall id :: id in ids && id !in rest ==> id in tombstones
        invariant left == late ==> forall id :: id in rows && rows[id].expiresAt <= now ==> id in rest
        decreases |rest|
      {
        ghost var before := State();
        var id := rest[0];
        assert id in rest;
        left := ShredRow(id, now, left);
        Chain(selected, before, State());
        StillKnown(before, State());
        GoneFrom(State(), id);
        assert forall other :: other in rest <==> other == id || other in rest[1..];
        rest := rest[1..];
      }
      ghost var shredded := State();
      Sweep();
      Chain(selected, shredded, State());
      Chain(start, selected, State());
      TombstonesStay(shredded, State());
      TombstonesStay(selected, State());
    }

    /** The last pass of `expire`, under the lock: files that an earlier interruption left behind. */
    method Sweep()
      requires Valid()
      modifies this
      ensures Valid() && Later(old(State()), State())
      ensures rows == old(rows) && tombstones == old(tombstones)
      ensures forall id :: id in tombstones ==> id !in files
    {
      hide Sound, Later;
      LaterReflexive(State());
      var rest := tombstones;
      while rest != {}
        invariant Valid() && Later(old(State()), State()) && rows == old(rows) && tombstones == old(tombstones) && rest <= tombstones
        invariant forall id :: id in tombstones && id !in rest ==> id !in files
        decreases |rest|
      {
        assert (forall id :: id !in rest) ==> rest == {};
        var id :| id in rest;
        rest := rest - {id};
        ghost var before := State();
        Perform(Unlink(self, id));
        Chain(old(State()), before, State());
      }
    }

    /** The live row with this content, if any. */
    method FindContent(source: string, contentHash: string) returns (found: Option<ArtifactId>)
      ensures found.Some? ==> found.value in rows && SameContent(rows[found.value], source, contentHash)
      ensures found.None? ==> !Holds(State(), source, contentHash)
    {
      var rest := rows.Keys;
      while rest != {}
        invariant rest <= rows.Keys
        invariant forall id :: id in rows && id !in rest ==> !SameContent(rows[id], source, contentHash)
        decreases |rest|
      {
        assert (forall id :: id !in rest) ==> rest == {};
        var id :| id in rest;
        rest := rest - {id};
        if SameContent(rows[id], source, contentHash) {
          return Some(id);
        }
      }
      found := None;
    }

    /** A random identifier has never been drawn before. */
    method FreshId() returns (id: ArtifactId)
      ensures id !in issued
    {
      id := 0;
      var rest := issued;
      while rest != {}
        invariant rest <= issued && forall other :: other in issued && other !in rest ==> other < id
        decreases |rest|
      {
        assert (forall other :: other !in rest) ==> rest == {};
        var other :| other in rest;
        rest := rest - {other};
        if other >= id {
          id := other + 1;
        }
      }
    }

    /** `_store`.  The same content is stored once: a later upload merges into the live row and can only bring its
        expiry forward.  A sample is turned away exactly when its variant already has five or one of its structure.
        The loop over expired rows goes round again only after another late store, so it ends however many of
        those there are. */
    method StoreArtifact(source: string, contentHash: string, fetchedAt: Time, kind: Kind, now: Time, late: nat)
      returns (valid: bool, stored: Option<ArtifactId>)
      requires Valid()
      modifies this
      ensures Valid() && Later(old(State()), State())
      ensures valid <==> fetchedAt <= now && now - fetchedAt < RETENTION
      ensures !valid ==> State() == old(State()) && stored.None?
      ensures stored.Some? ==>
                stored.value in rows && stored.value in files && SameContent(rows[stored.value], source, contentHash)
                && now < rows[stored.value].expiresAt <= fetchedAt + RETENTION
                && stored.value in merged && fetchedAt in merged[stored.value]
                && (kind.Diagnostic? ==> rows[stored.value].kind.Diagnostic?)
      ensures valid && stored.None? ==> kind.Sample? && !Holds(State(), source, contentHash) && TurnedAway(State(), source, kind)
    {
      hide Sound, Later, Admits, Holds, TurnedAway;
      ghost var start := State();
      LaterReflexive(start);
      stored := None;
      valid := Acceptable(fetchedAt, now);
      if !valid {
        return;
      }
      var left := late;
      if kind.Sample? {
        var _, unused := Expire(now, left);
        left := unused;
      }
      ghost var swept := State();
      left := Others(left, now);
      Chain(start, swept, State());
      var existing := FindContent(source, contentHash);
      while existing.Some? && rows[existing.value].expiresAt <= now
        invariant Valid() && Later(start, State())
        invariant existing.Some? ==> existing.value in rows && SameContent(rows[existing.value], source, contentHash)
        invariant existing.None? ==> !Holds(State(), source, contentHash)
        decreases left, existing.Some? && rows[existing.value].expiresAt <= now
      {
        existing, left := ShredAndLookAgain(existing.value, source, contentHash, now, left, start);
      }
      stored := MergeOrInsert(existing, source, contentHash, fetchedAt, kind, now, start);
      AdmitsExactly(State(), source, kind);
    }

    /** The rest of `_store`, once no expired row is in the way. */
    method MergeOrInsert(existing: Option<ArtifactId>, source: string, contentHash: string, fetchedAt: Time, kind: Kind, now: Time,
                         ghost start: Store) returns (stored: Option<ArtifactId>)
      requires Valid() && Sound(start) && Later(start, State()) && Acceptable(fetchedAt, now)
      requires existing.Some? ==>
                 existing.value in rows && SameContent(rows[existing.value], source, contentHash) && rows[existing.value].expiresAt > now
      requires existing.None? ==> !Holds(State(), source, contentHash)
      modifies this
      ensures Valid() && Later(start, State())
      ensures stored.Some? ==>
                stored.value in rows && stored.value in files && SameContent(rows[stored.value], source, contentHash)
                && now < rows[stored.value].expiresAt <= fetchedAt + RETENTION
                && stored.value in merged && fetchedAt in merged[stored.value]
                && (kind.Diagnostic? ==> rows[stored.value].kind.Diagnostic?)
      ensures stored.None? ==> kind.Sample? && !Holds(State(), source, contentHash) && !Admits(State(), source, kind)
    {
      hide Sound, Later, Admits, Holds;
      ghost var looked := State();
      if existing.Some? {
        Perform(Merge(self, existing.value, fetchedAt, kind.Sample?, now));
        Chain(start, looked, State());
        HasFile(State(), existing.value);
        return existing;
      }
      DiagnosticAdmitted(State(), source, kind);
      if !Admits(Store(rows, tombstones, files, pending, issued, merged, orphans), source, kind) {
        return None;
      }
      var id := FreshId();
      Perform(WriteFile(self, id, source, contentHash, fetchedAt, kind, now));
      ghost var written := State();
      Perform(CommitRow(self));
      Chain(start, looked, written);
      Chain(start, written, State());
      HasFile(State(), id);
      stored := Some(id);
    }

    /** One round over an expired row.  What another uploader put in its place may have expired too, but only if that
        uploader had read its clock earlier. */
    method ShredAndLookAgain(id: ArtifactId, source: string, contentHash: string, now: Time, late: nat, ghost start: Store)
      returns (existing: Option<ArtifactId>, left: nat)
      requires Valid() && id in rows && SameContent(rows[id], source, contentHash) && rows[id].expiresAt <= now
      requires Sound(start) && Later(start, State())
      modifies this
      ensures Valid() && Later(start, State()) && left <= late
      ensures existing.Some? ==>
                existing.value in rows && SameContent(rows[existing.value], source, contentHash)
                && (rows[existing.value].expiresAt <= now ==> left < late)
      ensures existing.None? ==> !Holds(State(), source, contentHash)
    {
      hide Sound, Later, Holds;
      ghost var before := State();
      OnlyOneWith(before, id);
      left := ShredRow(id, now, late);
      Chain(start, before, State());
      GoneFrom(State(), id);
      StillSame(before, State());
      LiveIsNotTombstoned(State());
      existing := FindContent(source, contentHash);
      if existing.Some? {
        var other := existing.value;
        assert other in before.rows ==> SameContent(before.rows[other], source, contentHash);
      }
    }

    /** `_live_row`, under the lock: an expired row is shredded on sight. */
    method LiveRow(id: ArtifactId, now: Time, late: nat) returns (live: bool, left: nat)
      requires Valid()
      modifies this
      ensures Valid() && Later(old(State()), State())
      ensures live ==> State() == old(State()) && id in rows && rows[id].expiresAt > now
      ensures !live ==> id !in old(rows) || (old(rows)[id].expiresAt <= now && id in tombstones)
    {
      hide Sound, Later;
      LaterReflexive(State());
      if id !in rows {
        return false, late;
      }
      if rows[id].expiresAt <= now {
        left := ShredRow(id, now, late);
        return false, left;
      }
      return true, late;
    }

    /** `read` and `metadata` succeed exactly on a live row, whose file is there to be read. */
    method Read(id: ArtifactId, now: Time, late: nat) returns (readable: bool, left: nat, ghost locked: Store)
      requires Valid()
      modifies this
      ensures Valid() && Later(old(State()), locked) && Later(locked, State()) && Later(old(State()), State())
      ensures readable <==> id in locked.rows && locked.rows[id].expiresAt > now
      ensures readable ==> id in rows && id in files && rows[id].expiresAt > now
      ensures id in old(tombstones) ==> !readable
    {
      hide Sound, Later;
      ghost var start := State();
      left := Others(late, now);
      locked := State();
      readable, left := LiveRow(id, now, left);
      Chain(start, locked, State());
      if readable {
        HasFile(State(), id);
        LiveIsNotTombstoned(State());
        TombstonesStay(start, State());
      }
    }

    /** `review_quality_sample`: what is a sample when the review finds it is shredded if confirmed, and otherwise
        becomes an ordinary diagnostic; anything else stays one. */
    method Review(id: ArtifactId, correct: bool, now: Time, late: nat)
      returns (found: bool, left: nat, ghost sample: bool, ghost locked: Store)
      requires Valid()
      modifies this
      ensures Valid() && Later(old(State()), locked) && Later(locked, State()) && Later(old(State()), State())
      ensures found <==> id in locked.rows && locked.rows[id].expiresAt > now
      ensures sample <==> found && locked.rows[id].kind.Sample?
      ensures found && sample && correct ==> id in tombstones
      ensures found && !(sample && correct) ==> id in rows && rows[id].kind.Diagnostic?
    {
      hide Sound, Later;
      ghost var start := State();
      left := Others(late, now);
      locked := State();
      found, left := LiveRow(id, now, left);
      sample := found && rows[id].kind.Sample?;
      if found && rows[id].kind.Sample? {
        ghost var before := State();
        if correct {
          left := ShredRow(id, now, left);
        } else {
          Perform(Reject(self, id, now));
        }
        Chain(locked, before, State());
      }
      Chain(start, locked, State());
    }

    /** `delete`: fails only on an artifact that never had a row; otherwise, in the end, neither row nor file is
        left, even if an earlier deletion had stopped before its file was gone. */
    method Delete(id: ArtifactId, now: Time, late: nat) returns (found: bool, left: nat)
      requires Valid()
      modifies this
      ensures Valid() && Later(old(State()), State())
      ensures found <==> id in tombstones
      ensures found ==> id !in rows && id !in files
      ensures id in old(rows) || id in old(tombstones) ==> found
    {
      hide Sound, Later;
      ghost var start := State();
      left := Others(late, now);
      ghost var locked := State();
      StillKnown(start, locked);
      LaterReflexive(locked);
      if id in rows {
        left := ShredRow(id, now, left);
        Chain(start, locked, State());
      }
      ghost var shredded := State();
      left := Others(left, now);
      Chain(start, shredded, State());
      Chain(locked, shredded, State());
      TombstonesStay(shredded, State());
      TombstonesStay(locked, State());
      found := id in tombstones;
      if found {
        ghost var before := State();
        Perform(Unlink(self, id));
        Chain(start, before, State());
        GoneFrom(State(), id);
      } else {
        assert id !in locked.rows;
      }
    }
  }

  lemma HasFile(s: Store, id: ArtifactId)
    requires Sound(s) && id in s.rows
    ensures id in s.files
  {
  }

  lemma DiagnosticAdmitted(s: Store, source: string, kind: Kind)
    ensures kind.Diagnostic? ==> Admits(s, source, kind)
  {
  }

  lemma OnlyOneWith(s: Store, id: ArtifactId)
    requires Sound(s) && id in s.rows
    ensures forall other :: other in s.rows && SameContent(s.rows[other], s.rows[id].source, s.rows[id].contentHash) ==> other == id
  {
  }

  lemma StillSame(s: Store, t: Store)
    requires Later(s, t)
    ensures forall id :: id in s.rows && id in t.rows && id !in t.tombstones ==> SameContent(t.rows[id], s.rows[id].source, s.rows[id].contentHash)
  {
  }

  /** A process that holds the lock releases it by committing, by failing, or by stopping. */
  lemma ReleasesLock(s: Store, process: ProcessId, crashed: bool)
    requires s.pending.Some? && s.pending.value.process == process
    ensures Next(s, CommitRow(process)).pending.None? && Next(s, Abandon(process, crashed)).pending.None?
  {
  }

  lemma Chain(s: Store, t: Store, u: Store)
    requires Sound(s) && Sound(t) && Sound(u) && Later(s, t) && Later(t, u)
    ensures Later(s, u)
  {
    hide FewSamples, DistinctSamples;
    LaterTransitive(s, t, u);
  }

  lemma Tombstoned(s: Store, t: Store, id: ArtifactId)
    requires Later(s, t) && id in s.tombstones
    ensures id in t.tombstones
  {
  }

  lemma TombstonesStay(s: Store, t: Store)
    requires Later(s, t)
    ensures s.tombstones <= t.tombstones
  {
  }

  lemma StillKnown(s: Store, t: Store)
    requires Later(s, t)
    ensures forall id :: id in s.rows ==> id in t.rows || id in t.tombstones
    ensures s.tombstones <= t.tombstones
  {
  }

  lemma GoneFrom(s: Store, id: ArtifactId)
    requires Sound(s) && id in s.tombstones
    ensures id !in s.rows
  {
  }

  lemma StillExpired(s: Store, t: Store, now: Time)
    requires Later(s, t)
    ensures forall id :: id in s.rows && s.rows[id].expiresAt <= now ==> id in t.tombstones || (id in t.rows && t.rows[id].expiresAt <= now)
  {
  }
}
