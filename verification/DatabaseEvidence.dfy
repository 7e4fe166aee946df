/**
 The database freshness check and its reader (`freshness` in scripts/lib/db_pbs_backup.py,
 `cache_evidence` and `database_summary` in scripts/backup-health-summary.py): the cache the one
 leaves is good evidence at every later time, and a healthy verdict bounds the recovery point's age.
 */
module DatabaseEvidence {
  import opened Prelude
  import opened BackupRetention

  const WARNING_AGE := 600
  const FAILED_AGE := 900
  const DB_FRESHNESS := 180.0
  const TOLERANCE := 2.0
  const LAST_TIME := 4102444800.0

  // ----- The freshness check -----

  /** What the remote calls of one check gave; none stands for a call that failed. Snapshot lists
      come newest first. */
  datatype View = View(
    proofs: Option<seq<int>>, data: Option<seq<int>>, proofSound: bool, receipt: Option<Receipt>, manifest: Option<Manifest>)

  datatype Snapshot = Snapshot(backupId: string, epoch: int)

  datatype Cache = Cache(point: int, readback: int, age: int, snapshot: Snapshot)

  datatype Finding =
    | Healthy | Aging | TooOld | NoCheckpoint | DataMissing | Unavailable | ClockMovedBackwards | ManifestChanged

  predicate IsBackupId(s: string) {
    0 < |s| <= 63 && 'a' <= s[0] <= 'z' && forall i | 0 <= i < |s| :: 'a' <= s[i] <= 'z' || '0' <= s[i] <= '9' || s[i] == '-'
  }

  /** The remote chain of one check: the newest proof, its receipt, and the data it vouches for. */
  predicate Confirmed(v: View, epoch: int) {
    && v.proofs.Some? && v.proofs.value != [] && v.proofs.value[0] == epoch
    && v.data.Some? && epoch in v.data.value
    && v.proofSound && v.receipt.Some? && ValidReceipt(v.receipt.value, epoch)
    && v.manifest.Some? && v.manifest.value.sound && v.manifest.value.fingerprint == v.receipt.value.fingerprint
  }

  predicate HasProof(v: View) {
    v.proofs.Some? && v.proofs.value != []
  }

  class Checker {
    const backupId: string
    var cache: Option<Cache>

    constructor (backupId: string)
      ensures this.backupId == backupId && cache == None
    {
      this.backupId := backupId;
      cache := None;
    }

    method Check(v: View, clock: real) returns (f: Finding)
      modifies this`cache
      ensures f == Healthy <==> Writes(Attempt(v, clock))
      ensures f == Healthy ==> cache == Some(CacheOf(backupId, v, clock))
      ensures f != Healthy ==> cache == old(cache)
      ensures f == Aging ==> HasProof(v) && Confirmed(v, v.proofs.value[0]) && WARNING_AGE <= clock.Floor - v.proofs.value[0] < FAILED_AGE
      ensures f == TooOld ==> HasProof(v) && Confirmed(v, v.proofs.value[0]) && FAILED_AGE <= clock.Floor - v.proofs.value[0]
      ensures f == NoCheckpoint <==> v.proofs == Some([]) && v.data.Some?
      ensures f == DataMissing <==> HasProof(v) && v.data.Some? && v.proofs.value[0] !in v.data.value
      ensures f == ManifestChanged ==> v.manifest.Some? && v.receipt.Some? && v.manifest.value.fingerprint != v.receipt.value.fingerprint
    {
      if v.proofs.None? || v.data.None? {
        return Unavailable;
      }
      if v.proofs.value == [] {
        return NoCheckpoint;
      }
      var epoch := v.proofs.value[0];
      if epoch !in v.data.value {
        return DataMissing;
      }
      if !v.proofSound || v.receipt.None? || !ValidReceipt(v.receipt.value, epoch) || v.manifest.None? || !v.manifest.value.sound {
        return Unavailable;
      }
      var now := clock.Floor;
      if epoch > now || v.receipt.value.verifiedAt > now {
        return ClockMovedBackwards;
      }
      if v.manifest.value.fingerprint != v.receipt.value.fingerprint {
        return ManifestChanged;
      }
      if now - epoch >= FAILED_AGE {
        return TooOld;
      }
      if now - epoch >= WARNING_AGE {
        return Aging;
      }
      cache := Some(Cache(epoch, v.receipt.value.verifiedAt, now - epoch, Snapshot(backupId, epoch)));
      f := Healthy;
    }
  }

  predicate Fresh(v: View, epoch: int, clock: real)
    requires v.receipt.Some?
  {
    epoch <= clock.Floor && v.receipt.value.verifiedAt <= clock.Floor && clock.Floor - epoch < WARNING_AGE
  }

  function CacheOf(backupId: string, v: View, clock: real): Cache
    requires v.proofs.Some? && v.proofs.value != [] && v.receipt.Some?
  {
    var epoch := v.proofs.value[0];
    Cache(epoch, v.receipt.value.verifiedAt, clock.Floor - epoch, Snapshot(backupId, epoch))
  }

  // ----- Reading the cache -----

  datatype Evidence = Evidence(point: int, asOf: int, pointAge: real, evidenceAge: real)

  predicate Numeric(x: int) {
    0 <= x && x as real <= LAST_TIME
  }

  /** The snapshot names the reader understands. */
  predicate IsSnapshotName(s: Snapshot) {
    && 0 < |s.backupId| <= 64
    && (forall i | 0 <= i < |s.backupId| ::
          var c := s.backupId[i];
          || 'a' <= c <= 'z' || 'A' <= c <= 'Z' || '0' <= c <= '9'
          || (i > 0 && (c == '.' || c == '_' || c == '-')))
  }

  function ReadCache(c: Cache, now: real): Option<Evidence> {
    if !Numeric(c.point) || !Numeric(c.readback) || !Numeric(c.age) then None
    else
      var asOf := c.point + c.age;
      if !(0 < c.point <= c.readback <= asOf && asOf as real <= now) then None
      else if !IsSnapshotName(c.snapshot) || c.snapshot.epoch != c.point then None
      else Some(Evidence(c.point, asOf, now - c.point as real, now - asOf as real))
  }

  /** The unit's last invocation, as the service manager reports it, on the monotonic clock. */
  datatype Unit = Unit(idle: bool, succeeded: bool, start: real, finish: real)

  datatype Verdict = HealthyNow | UnknownNow

  method Summarise(cache: Option<Cache>, unit: Option<Unit>, now: real, mono: real, clockSafe: bool) returns (verdict: Verdict)
    ensures verdict == HealthyNow <==>
            && cache.Some? && ReadCache(cache.value, now).Some? && unit.Some? && clockSafe
            && Current(ReadCache(cache.value, now).value, unit.value, now, mono)
  {
    if cache.None? || ReadCache(cache.value, now).None? || unit.None? {
      return UnknownNow;
    }
    var e, u := ReadCache(cache.value, now).value, unit.value;
    if u.start <= 0.0 || u.start > mono || u.finish > mono || u.finish < 0.0 {
      return UnknownNow;
    }
    if now - (mono - u.start) < 0.0 || (u.finish != 0.0 && now - (mono - u.finish) < 0.0) {
      return UnknownNow;
    }
    if !clockSafe || !u.idle || !u.succeeded {
      return UnknownNow;
    }
    if !(0.0 < u.start <= u.finish) {
      return UnknownNow;
    }
    if mono - u.finish > DB_FRESHNESS || e.evidenceAge > DB_FRESHNESS {
      return UnknownNow;
    }
    if !(now - (mono - u.start) - TOLERANCE <= e.asOf as real <= now - (mono - u.finish) + TOLERANCE) {
      return UnknownNow;
    }
    verdict := HealthyNow;
  }

  /** Evidence of the unit's last, successful and recent invocation. */
  predicate Current(e: Evidence, u: Unit, now: real, mono: real) {
    && u.idle && u.succeeded && 0.0 < u.start <= u.finish <= mono && 0.0 <= now - (mono - u.start)
    && mono - u.finish <= DB_FRESHNESS && e.evidenceAge <= DB_FRESHNESS
    && now - (mono - u.start) - TOLERANCE <= e.asOf as real <= now - (mono - u.finish) + TOLERANCE
  }

  // ----- Writer and reader -----

  lemma NamesAgree(backupId: string, epoch: int)
    requires IsBackupId(backupId)
    ensures IsSnapshotName(Snapshot(backupId, epoch))
  {
  }

  datatype Attempt = Attempt(view: View, clock: real)

  predicate Writes(a: Attempt) {
    var v := a.view;
    HasProof(v) && Confirmed(v, v.proofs.value[0]) && Fresh(v, v.proofs.value[0], a.clock)
  }

  /** The cache on disk after some checks: the one the last healthy check left. */
  function CacheAfter(backupId: string, attempts: seq<Attempt>): Option<Cache> {
    if attempts == [] then None
    else
      var last := attempts[|attempts| - 1];
      if Writes(last) then Some(CacheOf(backupId, last.view, last.clock)) else CacheAfter(backupId, attempts[..|attempts| - 1])
  }

  lemma {:induction false} CacheHasWriter(backupId: string, attempts: seq<Attempt>) returns (i: nat)
    requires CacheAfter(backupId, attempts).Some?
    ensures i < |attempts| && Writes(attempts[i])
    ensures CacheAfter(backupId, attempts) == Some(CacheOf(backupId, attempts[i].view, attempts[i].clock))
  {
    i := |attempts| - 1;
    if !Writes(attempts[i]) {
      i := CacheHasWriter(backupId, attempts[..i]);
    }
  }

  /** What any check wrote is good evidence from then on, exactly for points after the epoch. */
  lemma CacheStaysGood(backupId: string, a: Attempt, later: real)
    requires IsBackupId(backupId) && Writes(a) && a.clock <= later && a.clock <= LAST_TIME
    ensures ReadCache(CacheOf(backupId, a.view, a.clock), later).Some? <==> a.view.proofs.value[0] > 0
  {
    NamesAgree(backupId, a.view.proofs.value[0]);
    assert a.clock.Floor as real <= a.clock;
  }

  /** A healthy verdict from any history of checks means that one of them confirmed the recovery
      point remotely, at most three minutes ago, and that the point is at most 779 seconds old. */
  lemma HealthyBoundsAge(backupId: string, attempts: seq<Attempt>, unit: Unit, now: real, mono: real)
    returns (i: nat)
    requires CacheAfter(backupId, attempts).Some?
    requires ReadCache(CacheAfter(backupId, attempts).value, now).Some?
    requires Current(ReadCache(CacheAfter(backupId, attempts).value, now).value, unit, now, mono)
    ensures i < |attempts| && attempts[i].view.proofs.Some? && attempts[i].view.proofs.value != []
    ensures var epoch := attempts[i].view.proofs.value[0];
            && Confirmed(attempts[i].view, epoch)
            && now - attempts[i].clock.Floor as real <= DB_FRESHNESS
            && now - epoch as real <= (WARNING_AGE - 1) as real + DB_FRESHNESS
  {
    i := CacheHasWriter(backupId, attempts);
  }

  /** The bound is reached: a point can be 779 seconds old under a healthy verdict. */
  lemma BoundIsReached(backupId: string)
    requires IsBackupId(backupId)
    ensures var receipt := Receipt(true, 1000000, 1000000, "f");
            var view := View(Some([1000000]), Some([1000000]), true, Some(receipt), Some(Manifest("f", true)));
            var cache := CacheAfter(backupId, [Attempt(view, 1000599.0)]);
            && cache.Some? && ReadCache(cache.value, 1000779.0).Some?
            && ReadCache(cache.value, 1000779.0).value.pointAge == 779.0
            && Current(ReadCache(cache.value, 1000779.0).value, Unit(true, true, 820.0, 820.0), 1000779.0, 1000.0)
  {
    NamesAgree(backupId, 1000000);
    var receipt := Receipt(true, 1000000, 1000000, "f");
    var view := View(Some([1000000]), Some([1000000]), true, Some(receipt), Some(Manifest("f", true)));
    var a := Attempt(view, 1000599.0);
    assert a.clock.Floor == 1000599;
    assert Confirmed(view, 1000000) && Fresh(view, 1000000, a.clock);
    assert Writes(a);
    assert CacheAfter(backupId, [a]) == Some(Cache(1000000, 1000000, 599, Snapshot(backupId, 1000000)));
  }
}
