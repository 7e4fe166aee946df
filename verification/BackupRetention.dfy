/**
 Paired retention (`Client.forget_confirmed`, `Client.prune` and `validate_receipt` in
 scripts/lib/db_pbs_backup.py): data snapshots and the proofs that vouch for them are removed in
 pairs, over a remote store whose calls may fail at any time, before or after they took effect.
 */
module BackupRetention {
  import opened Prelude

  /** What a manifest says of its data, and whether it passes the checks on manifests. */
  datatype Manifest = Manifest(fingerprint: string, sound: bool)

  /** A verification receipt; `named` covers the identity fields that must match the configuration. */
  datatype Receipt = Receipt(named: bool, epoch: int, verifiedAt: int, fingerprint: string)

  datatype Verdict = Keep | Remove | Unclear

  /** One row of the server's retention preview. A time that is no whole number is none. */
  datatype Row = Row(inGroup: bool, time: Option<int>, verdict: Verdict)

  /** How a remote call ends: done, refused untouched, done but reported failed, or reported done and not. */
  datatype Outcome = Works | Refused | LostReply | Ignored

  datatype Stored = Stored(data: map<int, Manifest>, proofs: map<int, Receipt>)

  predicate ValidReceipt(r: Receipt, epoch: int) {
    r.named && r.epoch == epoch && r.verifiedAt >= epoch
  }

  /** An epoch whose proof is in order and, if its data is there, vouches for that data. */
  predicate Vouched(s: Stored, epoch: int) {
    && epoch in s.proofs && ValidReceipt(s.proofs[epoch], epoch)
    && (epoch in s.data ==> s.data[epoch].sound && s.data[epoch].fingerprint == s.proofs[epoch].fingerprint)
  }

  function Dropped(rows: seq<Row>): set<int> {
    set row | row in rows && row.verdict != Keep && row.time.Some? :: row.time.value
  }

  /** Nothing but removals: what is left is as it was. */
  predicate OnlyRemoves(before: Stored, after: Stored) {
    && after.data.Keys <= before.data.Keys && after.proofs.Keys <= before.proofs.Keys
    && (forall e | e in after.data :: after.data[e] == before.data[e])
    && (forall e | e in after.proofs :: after.proofs[e] == before.proofs[e])
  }

  /** What a retention run may have done, however far it got: only dropped and vouched epochs are
      touched, and a proof is gone only where the data is gone too. */
  predicate Pruned(before: Stored, after: Stored, dropped: set<int>) {
    && OnlyRemoves(before, after)
    && (forall e | e in before.data && e !in after.data :: e in dropped && Vouched(before, e))
    && (forall e | e in before.proofs && e !in after.proofs :: e in dropped && Vouched(before, e) && e !in after.data)
  }

  lemma PrunedFurther(a: Stored, b: Stored, c: Stored, dropped: set<int>)
    requires Pruned(a, b, dropped) && Pruned(b, c, dropped)
    ensures Pruned(a, c, dropped)
  {
  }

  class Remote {
    var stored: Stored
    var script: seq<Outcome>

    constructor (stored: Stored, script: seq<Outcome>)
      ensures this.stored == stored && this.script == script
    {
      this.stored := stored;
      this.script := script;
    }

    /** How the next call ends; a script that has run out means calls work. */
    method Next() returns (o: Outcome)
      modifies this`script
      ensures old(script) == [] ==> o == Works && script == []
    {
      if script == [] {
        o := Works;
      } else {
        o, script := script[0], script[1..];
      }
    }

    method Snapshots(proofs: bool) returns (r: Option<set<int>>)
      modifies this`script
      ensures r.Some? ==> r.value == if proofs then stored.proofs.Keys else stored.data.Keys
      ensures old(script) == [] ==> r.Some? && script == []
    {
      var o := Next();
      r := if o == Works then Some(if proofs then stored.proofs.Keys else stored.data.Keys) else None;
    }

    method ReadReceipt(epoch: int) returns (r: Option<Receipt>)
      modifies this`script
      ensures r.Some? ==> epoch in stored.proofs && r.value == stored.proofs[epoch]
      ensures old(script) == [] ==> script == [] && (epoch in stored.proofs ==> r.Some?)
    {
      var o := Next();
      r := if o == Works && epoch in stored.proofs then Some(stored.proofs[epoch]) else None;
    }

    method ReadManifest(epoch: int) returns (r: Option<Manifest>)
      modifies this`script
      ensures r.Some? ==> epoch in stored.data && r.value == stored.data[epoch]
      ensures old(script) == [] ==> script == [] && (epoch in stored.data ==> r.Some?)
    {
      var o := Next();
      r := if o == Works && epoch in stored.data then Some(stored.data[epoch]) else None;
    }

    method Forget(epoch: int, proofs: bool) returns (ok: bool)
      modifies this
      ensures stored == old(stored) || stored == Without(old(stored), epoch, proofs)
      ensures old(script) == [] ==> ok && script == [] && stored == Without(old(stored), epoch, proofs)
    {
      var o := Next();
      if o == Works || o == LostReply {
        stored := Without(stored, epoch, proofs);
      }
      ok := o == Works || o == Ignored;
    }

    /** Removes one snapshot and makes sure it is gone. */
    method ForgetConfirmed(epoch: int, proofs: bool) returns (ok: bool)
      modifies this
      ensures stored == old(stored) || stored == Without(old(stored), epoch, proofs)
      ensures ok ==> stored == Without(old(stored), epoch, proofs)
      ensures old(script) == [] ==> ok && script == []
    {
      var called := Forget(epoch, proofs);
      if !called {
        var listed := Snapshots(proofs);
        if listed.None? || epoch in listed.value {
          return false;
        }
      }
      var listed := Snapshots(proofs);
      ok := listed.Some? && epoch !in listed.value;
      if ok {
        AbsentIsWithout(stored, epoch, proofs);
      }
    }

    /** Removes one dropped epoch, the data before the proof. */
    method PruneEpoch(epoch: int, listed: bool) returns (ok: bool)
      requires epoch in stored.data ==> listed
      modifies this
      ensures Pruned(old(stored), stored, {epoch})
      ensures ok ==> epoch !in stored.data && epoch !in stored.proofs
      ensures old(script) == [] ==> script == []
      ensures old(script) == [] && Vouched(old(stored), epoch) && (listed ==> epoch in old(stored).data) ==> ok
    {
      var receipt := ReadReceipt(epoch);
      if receipt.None? || !ValidReceipt(receipt.value, epoch) {
        return false;
      }
      if listed {
        var manifest := ReadManifest(epoch);
        if manifest.None? || !manifest.value.sound || manifest.value.fingerprint != receipt.value.fingerprint {
          return false;
        }
        ok := ForgetConfirmed(epoch, false);
        if !ok {
          return;
        }
      }
      ok := ForgetConfirmed(epoch, true);
    }

    /** Applies the server's selection; the preview is none when that call failed. */
    method Prune(preview: Option<seq<Row>>, verified: int) returns (ok: bool)
      modifies this
      ensures preview.None? ==> !ok && stored == old(stored)
      ensures preview.Some? ==> Pruned(old(stored), stored, Dropped(preview.value))
      ensures preview.Some? && ok ==> forall e | e in Dropped(preview.value) :: e !in stored.data && e !in stored.proofs
      ensures preview.Some? && (ok || stored != old(stored)) ==> Sane(preview.value, verified)
      ensures preview.Some? && old(script) == [] && Applicable(preview.value, verified) && AllVouched(old(stored), preview.value) ==> ok
    {
      if preview.None? || !Sane(preview.value, verified) {
        return false;
      }
      var rows := preview.value;
      var listed := Snapshots(false);
      if listed.None? {
        return false;
      }
      var i := 0;
      while i < |rows|
        invariant 0 <= i <= |rows|
        invariant Pruned(old(stored), stored, Dropped(rows))
        invariant forall k | 0 <= k < i :: Settled(stored, rows[k])
        invariant old(script) == [] ==> script == []
        invariant Applicable(rows, verified) ==> Untouched(old(stored), stored, rows[i..])
      {
        var row := rows[i];
        assert row in rows && rows[i..] == [row] + rows[i + 1..];
        if row.verdict != Keep {
          if row.verdict != Remove || row.time.None? {
            return false;
          }
          var epoch := row.time.value;
          assert epoch in Dropped(rows);
          ghost var before := stored;
          ok := PruneEpoch(epoch, epoch in listed.value);
          PrunedWider(before, stored, {epoch}, Dropped(rows));
          PrunedFurther(old(stored), before, stored, Dropped(rows));
          if !ok {
            return;
          }
          if Applicable(rows, verified) {
            RestUntouched(old(stored), before, stored, rows, i);
          }
        }
        i := i + 1;
      }
      EveryDroppedSettled(stored, rows);
      ok := true;
    }
  }

  predicate SameAt(a: Stored, b: Stored, epoch: int) {
    && (epoch in a.data <==> epoch in b.data) && (epoch in a.data ==> a.data[epoch] == b.data[epoch])
    && (epoch in a.proofs <==> epoch in b.proofs) && (epoch in a.proofs ==> a.proofs[epoch] == b.proofs[epoch])
  }

  predicate Untouched(a: Stored, b: Stored, rows: seq<Row>) {
    forall row | row in rows && row.verdict != Keep && row.time.Some? :: SameAt(a, b, row.time.value)
  }

  predicate AllVouched(s: Stored, rows: seq<Row>) {
    forall e | e in Dropped(rows) :: Vouched(s, e)
  }

  lemma RestUntouched(a: Stored, b: Stored, c: Stored, rows: seq<Row>, i: nat)
    requires i < |rows| && rows[i].time.Some? && Untouched(a, b, rows[i..]) && Pruned(b, c, {rows[i].time.value})
    requires forall j, k | 0 <= j < k < |rows| && rows[j].time.Some? :: rows[j].time != rows[k].time
    ensures Untouched(a, c, rows[i + 1..])
  {
    assert rows[i..] == [rows[i]] + rows[i + 1..];
    forall row | row in rows[i + 1..] && row.verdict != Keep && row.time.Some? ensures SameAt(a, c, row.time.value) {
      var k :| i + 1 <= k < |rows| && rows[k] == row;
      assert row in rows[i..];
      assert row.time.value != rows[i].time.value;
    }
  }

  lemma EveryDroppedSettled(s: Stored, rows: seq<Row>)
    requires forall k | 0 <= k < |rows| :: Settled(s, rows[k])
    ensures forall e | e in Dropped(rows) :: e !in s.data && e !in s.proofs
  {
  }

  lemma PrunedWider(a: Stored, b: Stored, few: set<int>, many: set<int>)
    requires Pruned(a, b, few) && few <= many
    ensures Pruned(a, b, many)
  {
  }

  predicate Settled(s: Stored, row: Row) {
    row.verdict != Keep && row.time.Some? ==> row.time.value !in s.data && row.time.value !in s.proofs
  }

  /** What the program insists on before it removes anything. */
  predicate Sane(rows: seq<Row>, verified: int) {
    && (forall row | row in rows :: row.inGroup)
    && |Current(rows, verified)| == 1 && Current(rows, verified)[0].verdict == Keep
  }

  function Current(rows: seq<Row>, verified: int): seq<Row> {
    if rows == [] then []
    else
      var front := Current(rows[..|rows| - 1], verified);
      if rows[|rows| - 1].time == Some(verified) then front + [rows[|rows| - 1]] else front
  }

  /** A preview that can be carried out: sane, every decision clear, no epoch twice. */
  predicate Applicable(rows: seq<Row>, verified: int) {
    && Sane(rows, verified)
    && (forall row | row in rows && row.verdict != Keep :: row.verdict == Remove && row.time.Some?)
    && (forall i, j | 0 <= i < j < |rows| && rows[i].time.Some? :: rows[i].time != rows[j].time)
  }

  function Without(s: Stored, epoch: int, proofs: bool): Stored {
    if proofs then s.(proofs := s.proofs - {epoch}) else s.(data := s.data - {epoch})
  }

  lemma AbsentIsWithout(s: Stored, epoch: int, proofs: bool)
    requires epoch !in (if proofs then s.proofs.Keys else s.data.Keys)
    ensures Without(s, epoch, proofs) == s
  {
    if proofs {
      assert s.proofs - {epoch} == s.proofs;
    } else {
      assert s.data - {epoch} == s.data;
    }
  }

  // ----- What retention never touches, and what finishes it -----

  lemma {:induction false} CurrentRows(rows: seq<Row>, epoch: int)
    ensures forall row :: row in Current(rows, epoch) <==> row in rows && row.time == Some(epoch)
  {
    if rows != [] {
      CurrentRows(rows[..|rows| - 1], epoch);
      assert rows == rows[..|rows| - 1] + [rows[|rows| - 1]];
    }
  }

  /** A sane preview never drops the newly verified epoch, whatever else it holds. */
  lemma VerifiedIsSafe(rows: seq<Row>, verified: int)
    requires Sane(rows, verified)
    ensures verified !in Dropped(rows)
  {
    CurrentRows(rows, verified);
    var kept := Current(rows, verified)[0];
    forall row | row in rows && row.time == Some(verified) ensures row == kept {
      assert row in Current(rows, verified);
    }
  }

  /** With no epoch listed twice, nothing that is to be kept is dropped. */
  lemma KeptIsSafe(rows: seq<Row>, verified: int, row: Row)
    requires Applicable(rows, verified) && row in rows && row.verdict == Keep && row.time.Some?
    ensures row.time.value !in Dropped(rows)
  {
    var i :| 0 <= i < |rows| && rows[i] == row;
    forall j | 0 <= j < |rows| && rows[j].verdict != Keep && rows[j].time.Some?
      ensures rows[j].time.value != row.time.value
    {
    }
  }

  /** The preview a server gives later: the rows whose proofs are still there. */
  function Remaining(rows: seq<Row>, proofs: set<int>): seq<Row> {
    if rows == [] then []
    else
      var front := Remaining(rows[..|rows| - 1], proofs);
      var last := rows[|rows| - 1];
      if last.time.Some? && last.time.value !in proofs then front else front + [last]
  }

  lemma {:induction false} RemainingRows(rows: seq<Row>, proofs: set<int>)
    ensures forall row :: row in Remaining(rows, proofs) <==> row in rows && (row.time.Some? ==> row.time.value in proofs)
    ensures (forall i, j | 0 <= i < j < |rows| && rows[i].time.Some? :: rows[i].time != rows[j].time) ==>
              forall i, j | 0 <= i < j < |Remaining(rows, proofs)| && Remaining(rows, proofs)[i].time.Some? ::
                Remaining(rows, proofs)[i].time != Remaining(rows, proofs)[j].time
  {
    if rows != [] {
      var n := |rows| - 1;
      RemainingRows(rows[..n], proofs);
      assert rows == rows[..n] + [rows[n]];
      assert forall i | 0 <= i < |Remaining(rows[..n], proofs)| :: Remaining(rows[..n], proofs)[i] in rows[..n];
    }
  }

  lemma {:induction false} RemainingCurrent(rows: seq<Row>, proofs: set<int>, verified: int)
    requires verified in proofs
    ensures Current(Remaining(rows, proofs), verified) == Current(rows, verified)
  {
    if rows != [] {
      var n := |rows| - 1;
      RemainingCurrent(rows[..n], proofs, verified);
      var front := Remaining(rows[..n], proofs);
      if rows[n].time.None? || rows[n].time.value in proofs {
        assert (front + [rows[n]])[..|front|] == front;
      }
    }
  }

  ghost predicate Finished(s: Stored, rows: seq<Row>) {
    forall e | e in Dropped(rows) :: e !in s.data && e !in s.proofs
  }

  /** Whatever preview the server decides on next: once that run completes, the selection of a run
      that stopped anywhere is finished exactly when the next one selects what it left behind. */
  lemma AnyRerunFinishes(before: Stored, after: Stored, final: Stored, rows: seq<Row>, next: seq<Row>)
    requires Pruned(before, after, Dropped(rows))
    requires Pruned(after, final, Dropped(next)) && Finished(final, next)
    ensures Finished(final, rows) <==>
            forall e | e in Dropped(rows) && (e in after.data || e in after.proofs) :: e in Dropped(next)
  {
  }

  /** Wherever a run stopped, the next one, over what is left, has a preview it can carry out and
      only vouched epochs to remove; once it completes, neither half of any dropped epoch is left. */
  lemma RerunFinishes(before: Stored, after: Stored, final: Stored, rows: seq<Row>, verified: int)
    requires Applicable(rows, verified) && AllVouched(before, rows) && verified in before.proofs
    requires Pruned(before, after, Dropped(rows))
    ensures var rest := Remaining(rows, after.proofs.Keys);
            && Applicable(rest, verified) && AllVouched(after, rest)
            && (Pruned(after, final, Dropped(rest)) && Finished(final, rest) ==>
                  Pruned(before, final, Dropped(rows)) && Finished(final, rows))
  {
    var rest := Remaining(rows, after.proofs.Keys);
    VerifiedIsSafe(rows, verified);
    RemainingRows(rows, after.proofs.Keys);
    RemainingCurrent(rows, after.proofs.Keys, verified);
    forall e | e in Dropped(rest) ensures e in Dropped(rows) && e in after.proofs && Vouched(after, e) {
    }
    forall e | e in Dropped(rows) && e in after.proofs ensures e in Dropped(rest) {
      var row :| row in rows && row.verdict != Keep && row.time.Some? && row.time.value == e;
      assert row in rest;
    }
    if Pruned(after, final, Dropped(rest)) {
      PrunedWider(after, final, Dropped(rest), Dropped(rows));
      PrunedFurther(before, after, final, Dropped(rows));
    }
  }
}
