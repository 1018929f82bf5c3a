/** Immutable parser releases and the portal pointer that fences old leases. */
module ParserReleases {
  import opened Options
  import opened Contracts

  /** `register`: content-addressed, so a known hash must carry the same provenance. */
  function Register(db: Db, hash: Hash, source: Portal, provenance: string): (Db, Reply<ReleaseStatus>) {
    if hash in db.releases then
      (db, if db.releases[hash].source == source && db.releases[hash].provenance == provenance
           then Ok(db.releases[hash].status) else Invalid)
    else (AddRelease(db, hash, Release(source, provenance, Draft)), Ok(Draft))
  }

  function AddRelease(db: Db, hash: Hash, row: Release): Db {
    db.(releases := db.releases[hash := row])
  }

  function CurrentEpoch(db: Db, source: Portal): int {
    if source in db.pointers then db.pointers[source].epoch else 0
  }

  function CurrentRelease(db: Db, source: Portal): Option<Hash> {
    if source in db.pointers then Some(db.pointers[source].releaseHash) else None
  }

  /** Hashes that the healthy, recently seen workers of one deployment can run. */
  function Capabilities(db: Db, source: Portal, d: Deployment, health: int, now: Time): set<Hash> {
    set w, h | w in db.workers && h in db.workers[w].releases
      && db.workers[w].source == source && db.workers[w].healthy
      && db.workers[w].heartbeatAt > now - health && db.workers[w].deployment == d :: h
  }

  predicate Deployable(db: Db, source: Portal, release: Hash, health: int, now: Time) {
    var required := {release} + (if source in db.pointers then {db.pointers[source].releaseHash} else {});
    required <= Capabilities(db, source, Nas, health, now) && required <= Capabilities(db, source, Vps, health, now)
  }

  /** The gates of `_change`, in order of what they protect. */
  predicate ChangeAllowed(db: Db, source: Portal, release: Hash, action: ChangeAction, expected: Option<int>,
                          eligible: bool, health: int, now: Time) {
    (expected.Some? ==> expected.value == CurrentEpoch(db, source))
    && release in db.releases && db.releases[release].source == source && !db.releases[release].status.Revoked?
    && Deployable(db, source, release, health, now)
    && (action.Activate? ==> eligible)
  }

  function Withdraw(releases: map<Hash, Release>, current: Option<Hash>, release: Hash, action: ChangeAction): map<Hash, Release> {
    if current.Some? && current.value != release && current.value in releases
    then releases[current.value := releases[current.value].(status := if action.Rollback? then Revoked else Retired)]
    else releases
  }

  /** The rows a pointer change writes: the next epoch, the statuses of both releases, one audit. */
  function Changed(db: Db, source: Portal, release: Hash, action: ChangeAction, now: Time): Db
    requires release in db.releases
  {
    var current := CurrentRelease(db, source);
    var epoch := CurrentEpoch(db, source) + 1;
    var withdrawn := Withdraw(db.releases, current, release, action);
    db.(pointers := db.pointers[source := Pointer(release, epoch)],
        releases := withdrawn[release := db.releases[release].(status := Active)],
        audits := db.audits[source := AuditsOf(db, source) + [Audit(epoch, current, release, action, now)]])
  }

  /** `_change`; `eligible` is the benchmark verdict on the candidate. */
  function MovePointer(db: Db, source: Portal, release: Hash, action: ChangeAction, expected: Option<int>,
                  eligible: bool, health: int, now: Time): (Db, Reply<int>) {
    if release in db.releases && ChangeAllowed(db, source, release, action, expected, eligible, health, now)
    then (Changed(db, source, release, action, now), Ok(CurrentEpoch(db, source) + 1))
    else (db, Rejected)
  }

  predicate RollbackSource(db: Db, source: Portal, i: int) {
    0 <= i < |AuditsOf(db, source)| && source in db.pointers
    && AuditsOf(db, source)[i].releaseHash == db.pointers[source].releaseHash
    && AuditsOf(db, source)[i].previous.Some?
  }

  /** What `rollback` reads in its first transaction: the predecessor recorded by the newest audit
      that installed the current release over another one. */
  function RollbackTarget(db: Db, source: Portal): Option<Hash> {
    LatestPrevious(db, source, |AuditsOf(db, source)|)
  }

  function LatestPrevious(db: Db, source: Portal, n: int): Option<Hash>
    requires n <= |AuditsOf(db, source)|
    decreases n
  {
    if n <= 0 then None
    else if RollbackSource(db, source, n - 1) then AuditsOf(db, source)[n - 1].previous
    else LatestPrevious(db, source, n - 1)
  }
}
