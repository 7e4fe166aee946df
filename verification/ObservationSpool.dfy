/**
 The bounded spool of immutable records (`ObservationStore` in scripts/lib/observation_spool.py),
 over the directory that holds them, as a map from keys to payloads. Locking, file permissions,
 JSON and hashing are not modelled: a payload is the bytes of an encoded document.
 */
module ObservationSpool {
  import opened Prelude
  import opened SpoolNames

  type Bytes = seq<bv8>

  datatype Flaw =
    | KeyInvalid | SampleTooLarge | FileTooLarge | ContentConflict | EntryInvalid | StoreFull | ReadOnly
    | BatchLimitInvalid | ContentChanged

  /** The reasons for which the store refuses to list itself. */
  const LISTING_FLAWS := {EntryInvalid, FileTooLarge, StoreFull}

  datatype Limits = Limits(samples: nat, bytes: nat, sampleBytes: nat)

  datatype Row = Row(key: Key, size: nat)

  datatype Record = Record(key: Key, payload: Bytes)

  const LOCK := ".store.lock"
  const CONTROLS := {"state.json", "status.json", "latest.json"}

  // ----- Records as a map -----

  type Records = map<Key, Bytes>

  ghost function TotalBytes(m: Records): nat
    decreases |m|
  {
    if m == map[] then 0
    else
      var k :| k in m;
      |m[k]| + TotalBytes(m - {k})
  }

  lemma {:induction false} TotalWithout(m: Records, k: Key)
    requires k in m
    ensures TotalBytes(m) == |m[k]| + TotalBytes(m - {k})
    decreases |m|
  {
    var j :| j in m && TotalBytes(m) == |m[j]| + TotalBytes(m - {j});
    if j != k {
      TotalWithout(m - {j}, k);
      TotalWithout(m - {k}, j);
      assert m - {j} - {k} == m - {k} - {j};
    }
  }

  lemma TotalWith(m: Records, k: Key, payload: Bytes)
    requires k !in m
    ensures TotalBytes(m[k := payload]) == TotalBytes(m) + |payload|
    ensures |m[k := payload]| == |m| + 1
  {
    assert m[k := payload] - {k} == m;
    TotalWithout(m[k := payload], k);
    assert m[k := payload].Keys == m.Keys + {k};
  }

  ghost predicate Within(limits: Limits, m: Records) {
    && |m| <= limits.samples && TotalBytes(m) <= limits.bytes
    && forall k | k in m :: |m[k]| <= limits.sampleBytes
  }

  /** What storing one more record needs. */
  ghost predicate Fits(limits: Limits, m: Records, payload: Bytes) {
    |m| < limits.samples && TotalBytes(m) + |payload| <= limits.bytes
  }

  predicate SortedRows(rows: seq<Row>) {
    forall i, j | 0 <= i < j < |rows| :: KeyLess(rows[i].key, rows[j].key)
  }

  predicate Lists(rows: seq<Row>, m: Records) {
    && SortedRows(rows)
    && (forall r | r in rows :: r.key in m && r.size == |m[r.key]|)
    && (forall k | k in m :: Row(k, |m[k]|) in rows)
  }

  method InsertRow(rows: seq<Row>, row: Row) returns (r: seq<Row>)
    requires SortedRows(rows) && forall i | 0 <= i < |rows| :: rows[i].key != row.key
    ensures SortedRows(r) && |r| == |rows| + 1
    ensures forall x :: x in r <==> x in rows || x == row
  {
    var i := 0;
    while i < |rows| && KeyLess(rows[i].key, row.key)
      invariant 0 <= i <= |rows| && forall k | 0 <= k < i :: KeyLess(rows[k].key, row.key)
    {
      i := i + 1;
    }
    forall k | i <= k < |rows| ensures KeyLess(row.key, rows[k].key) {
      KeyLessIsTotal(rows[i].key, row.key);
      if i < k {
        KeyLessIsTransitive(row.key, rows[i].key, rows[k].key);
      }
    }
    r := rows[..i] + [row] + rows[i..];
    assert rows == rows[..i] + rows[i..];
  }

  // ----- Runs -----

  datatype Op = PutOp(key: Key, payload: Bytes) | AckOp(key: Key, payload: Bytes) | LookOp

  /** What an operation may do to the records. */
  ghost predicate Steps(limits: Limits, m: Records, op: Op, next: Records) {
    || next == m
    || match op
       case PutOp(key, payload) =>
         key !in m && |payload| <= limits.sampleBytes && Fits(limits, m, payload) && next == m[key := payload]
       case AckOp(key, payload) => key in m && m[key] == payload && next == m - {key}
       case LookOp => false
  }

  ghost predicate IsRun(limits: Limits, states: seq<Records>, ops: seq<Op>) {
    |states| == |ops| + 1 && forall i | 0 <= i < |ops| :: Steps(limits, states[i], ops[i], states[i + 1])
  }

  lemma {:induction false} RunStaysWithin(limits: Limits, states: seq<Records>, ops: seq<Op>)
    requires IsRun(limits, states, ops) && Within(limits, states[0])
    ensures Within(limits, states[|ops|])
  {
    var n := |ops|;
    if n > 0 {
      RunStaysWithin(limits, states[..n], ops[..n - 1]);
      var m, op := states[n - 1], ops[n - 1];
      assert Steps(limits, m, op, states[n]);
      if states[n] != m {
        if op.PutOp? {
          TotalWith(m, op.key, op.payload);
        } else {
          TotalWithout(m, op.key);
          assert m.Keys == (m - {op.key}).Keys + {op.key};
        }
      }
    }
  }

  /** Over any run a stored payload stays as it is until its own content is acknowledged. */
  lemma {:induction false} PayloadStays(limits: Limits, states: seq<Records>, ops: seq<Op>, key: Key)
    requires IsRun(limits, states, ops) && key in states[0]
    requires AckOp(key, states[0][key]) !in ops
    ensures key in states[|ops|] && states[|ops|][key] == states[0][key]
  {
    var n := |ops|;
    if n > 0 {
      PayloadStays(limits, states[..n], ops[..n - 1], key);
      assert Steps(limits, states[n - 1], ops[n - 1], states[n]);
      assert ops[n - 1] in ops;
    }
  }

  // ----- The directory -----

  /** What a file name in the directory stands for; SpoolNames shows that record names and keys
      correspond one to one. Any other name makes the store refuse to list itself. */
  datatype Entry = RecordFile(key: Key) | ControlFile(name: string) | LockFile | OtherFile(name: string)

  function EntryOf(name: string): Entry {
    if name == LOCK then LockFile
    else if name in CONTROLS then ControlFile(name)
    else if IsRecordName(name) && KeyOf(name).sequence <= MAX_SEQUENCE then RecordFile(KeyOf(name))
    else OtherFile(name)
  }

  /** A record's own name leads to it, and no other name does. */
  lemma RecordHasOneName(key: Key, name: string)
    requires IsKey(key)
    ensures EntryOf(name) == RecordFile(key) <==> name == Name(key)
  {
    NameReadBack(key);
    var own := Name(key);
    assert own != LOCK && own !in CONTROLS by {
      assert own[6] == '-';
    }
    if EntryOf(name) == RecordFile(key) {
      KeyReadBack(name);
    }
  }

  type Files = map<Entry, Bytes>

  function Among(files: Files, entries: set<Entry>): (m: Records)
    requires entries <= files.Keys
    ensures forall k :: k in m <==> RecordFile(k) in entries
    ensures forall k | k in m :: m[k] == files[RecordFile(k)]
  {
    map e | e in entries && e.RecordFile? :: e.key := files[e]
  }

  lemma AmongMore(files: Files, entries: set<Entry>, e: Entry)
    requires entries <= files.Keys && e in files && e !in entries
    ensures e.RecordFile? ==>
              && e.key !in Among(files, entries)
              && Among(files, entries + {e}) == Among(files, entries)[e.key := files[e]]
    ensures !e.RecordFile? ==> Among(files, entries + {e}) == Among(files, entries)
  {
  }

  lemma {:induction false} AmongFewer(files: Files, entries: set<Entry>, more: set<Entry>)
    requires entries <= more <= files.Keys
    ensures |Among(files, entries)| <= |Among(files, more)|
    ensures TotalBytes(Among(files, entries)) <= TotalBytes(Among(files, more))
    decreases |more - entries|
  {
    if more - entries == {} {
      assert entries == more;
    } else {
      var e :| e in more - entries;
      OneLess(more, entries, e);
      AmongFewer(files, entries + {e}, more);
      AmongMore(files, entries, e);
      if e.RecordFile? {
        TotalWith(Among(files, entries), e.key, files[e]);
      }
    }
  }

  /** The listing of the entries seen so far, none of which was refused. */
  ghost predicate Listed(limits: Limits, files: Files, done: set<Entry>, rows: seq<Row>, total: nat)
    requires done <= files.Keys
  {
    var m := Among(files, done);
    && (forall e | e in done :: !e.OtherFile?)
    && Lists(rows, m) && |rows| == |m| && total == TotalBytes(m)
    && |m| <= limits.samples && forall k | k in m :: |m[k]| <= limits.sampleBytes
  }

  lemma ListsOneMore(rows: seq<Row>, m: Records, key: Key, payload: Bytes, next: seq<Row>)
    requires Lists(rows, m) && key !in m && SortedRows(next)
    requires forall x :: x in next <==> x in rows || x == Row(key, |payload|)
    ensures Lists(next, m[key := payload])
  {
  }

  method ListEntry(limits: Limits, files: Files, ghost done: set<Entry>, rows: seq<Row>, total: nat, e: Entry)
    returns (r: Result<(seq<Row>, nat), Flaw>)
    requires done <= files.Keys && e in files && e !in done && Listed(limits, files, done, rows, total)
    ensures r.Ok? ==> Listed(limits, files, done + {e}, r.value.0, r.value.1)
    ensures r.Err? ==> r.reason in LISTING_FLAWS
    ensures r.Err? ==>
              || e.OtherFile?
              || (e.RecordFile? && |files[e]| > limits.sampleBytes)
              || |Among(files, done + {e})| > limits.samples
  {
    AmongMore(files, done, e);
    match e {
      case OtherFile(_) =>
        r := Err(EntryInvalid);
      case RecordFile(key) =>
        var size := |files[e]|;
        if size > limits.sampleBytes {
          return Err(FileTooLarge);
        }
        TotalWith(Among(files, done), key, files[e]);
        var more := InsertRow(rows, Row(key, size));
        ListsOneMore(rows, Among(files, done), key, files[e], more);
        if |more| > limits.samples {
          return Err(StoreFull);
        }
        r := Ok((more, total + size));
      case _ =>
        r := Ok((rows, total));
    }
  }

  ghost predicate OrderlyFiles(limits: Limits, files: Files) {
    (forall e | e in files :: !e.OtherFile?) && Within(limits, Among(files, files.Keys))
  }

  lemma NothingListed(limits: Limits, files: Files)
    ensures Listed(limits, files, {}, [], 0)
  {
    assert Among(files, {}) == map[];
  }

  lemma RefusedIsDisorderly(limits: Limits, files: Files, done: set<Entry>, e: Entry)
    requires done <= files.Keys && e in files
    requires e.OtherFile? || (e.RecordFile? && |files[e]| > limits.sampleBytes) || |Among(files, done + {e})| > limits.samples
    ensures !OrderlyFiles(limits, files)
  {
    AmongFewer(files, done + {e}, files.Keys);
    assert e.RecordFile? ==> e.key in Among(files, files.Keys);
  }

  method ListDirectory(limits: Limits, files: Files) returns (r: Result<(seq<Row>, nat), Flaw>)
    ensures r.Ok? <==> OrderlyFiles(limits, files)
    ensures r.Err? ==> r.reason in LISTING_FLAWS
    ensures r.Ok? ==>
              var m := Among(files, files.Keys);
              Lists(r.value.0, m) && |r.value.0| == |m| && r.value.1 == TotalBytes(m)
  {
    var rows: seq<Row> := [];
    var total: nat := 0;
    var done: set<Entry> := {};
    NothingListed(limits, files);
    while done != files.Keys
      invariant done <= files.Keys && Listed(limits, files, done, rows, total)
      decreases |files.Keys - done|
    {
      var e :| e in files.Keys - done;
      OneLess(files.Keys, done, e);
      var next := ListEntry(limits, files, done, rows, total, e);
      if next.Err? {
        RefusedIsDisorderly(limits, files, done, e);
        return Err(next.reason);
      }
      rows, total := next.value.0, next.value.1;
      done := done + {e};
    }
    AllListed(limits, files, rows, total);
    if total > limits.bytes {
      return Err(StoreFull);
    }
    r := Ok((rows, total));
  }

  lemma AllListed(limits: Limits, files: Files, rows: seq<Row>, total: nat)
    requires Listed(limits, files, files.Keys, rows, total)
    ensures OrderlyFiles(limits, files) <==> total <= limits.bytes
  {
  }

  lemma AmongWith(files: Files, key: Key, payload: Bytes)
    requires RecordFile(key) !in files
    ensures var more := files[RecordFile(key) := payload];
            Among(more, more.Keys) == Among(files, files.Keys)[key := payload]
  {
  }

  lemma StaysWithin(limits: Limits, m: Records, key: Key, payload: Bytes)
    requires Within(limits, m) && Fits(limits, m, payload) && key !in m && |payload| <= limits.sampleBytes
    ensures Within(limits, m[key := payload])
  {
    TotalWith(m, key, payload);
  }

  lemma OneFileMore(limits: Limits, files: Files, key: Key, payload: Bytes)
    requires RecordFile(key) !in files && |payload| <= limits.sampleBytes
    requires OrderlyFiles(limits, files) && Fits(limits, Among(files, files.Keys), payload)
    ensures var more := files[RecordFile(key) := payload];
            OrderlyFiles(limits, more) && Among(more, more.Keys) == Among(files, files.Keys)[key := payload]
  {
    AmongWith(files, key, payload);
    StaysWithin(limits, Among(files, files.Keys), key, payload);
  }

  lemma OneFileLess(limits: Limits, files: Files, key: Key)
    requires RecordFile(key) in files
    ensures var less := files - {RecordFile(key)};
            && Among(less, less.Keys) == Among(files, files.Keys) - {key}
            && (OrderlyFiles(limits, files) ==> OrderlyFiles(limits, less))
  {
    var m := Among(files, files.Keys);
    var less := files - {RecordFile(key)};
    TotalWithout(m, key);
    assert Among(less, less.Keys) == m - {key};
    assert m.Keys == (m - {key}).Keys + {key};
  }

  class Store {
    const limits: Limits
    var files: Files
    var readOnly: bool

    constructor (limits: Limits, files: Files, readOnly: bool)
      ensures this.limits == limits && this.files == files && this.readOnly == readOnly
    {
      this.limits := limits;
      this.files := files;
      this.readOnly := readOnly;
    }

    function Contents(): (m: Records)
      reads this
      ensures forall k :: k in m <==> RecordFile(k) in files
      ensures forall k | k in m :: m[k] == files[RecordFile(k)]
    {
      Among(files, files.Keys)
    }

    /** What listing the directory insists on. */
    ghost predicate Orderly()
      reads this
    {
      OrderlyFiles(limits, files)
    }

    method Read(key: Key) returns (r: Result<Option<Bytes>, Flaw>)
      ensures r == if key !in Contents() then Ok(None)
                   else if |Contents()[key]| > limits.sampleBytes then Err(FileTooLarge)
                   else Ok(Some(Contents()[key]))
    {
      if RecordFile(key) !in files {
        return Ok(None);
      }
      var payload := files[RecordFile(key)];
      if |payload| > limits.sampleBytes {
        return Err(FileTooLarge);
      }
      r := Ok(Some(payload));
    }

    /** Lists the records in order; it refuses unless the whole directory is orderly. */
    method Entries() returns (r: Result<(seq<Row>, nat), Flaw>)
      ensures r.Ok? <==> Orderly()
      ensures r.Err? ==> r.reason in LISTING_FLAWS
      ensures r.Ok? ==> Lists(r.value.0, Contents()) && |r.value.0| == |Contents()| && r.value.1 == TotalBytes(Contents())
    {
      r := ListDirectory(limits, files);
    }

    method CheckRoom(payload: Bytes) returns (flaw: Option<Flaw>)
      ensures flaw.None? <==> Orderly() && Fits(limits, Contents(), payload)
      ensures flaw.Some? ==> flaw.value in LISTING_FLAWS
      ensures Orderly() && flaw.Some? ==> flaw == Some(StoreFull)
    {
      var listed := Entries();
      if listed.Err? {
        return Some(listed.reason);
      }
      if |listed.value.0| >= limits.samples || listed.value.1 + |payload| > limits.bytes {
        return Some(StoreFull);
      }
      flaw := None;
    }

    method WriteNew(key: Key, payload: Bytes) returns (flaw: Option<Flaw>)
      requires key !in Contents() && |payload| <= limits.sampleBytes && Orderly() && Fits(limits, Contents(), payload)
      modifies this`files
      ensures flaw == if readOnly then Some(ReadOnly) else None
      ensures readOnly ==> files == old(files)
      ensures !readOnly ==> Contents() == old(Contents())[key := payload]
      ensures Orderly()
    {
      if readOnly {
        return Some(ReadOnly);
      }
      OneFileMore(limits, files, key, payload);
      files := files[RecordFile(key) := payload];
      flaw := None;
    }

    /** Stores a record once: the same content again changes nothing, other content is refused. */
    method Put(key: Key, payload: Bytes) returns (r: Result<bool, Flaw>)
      modifies this`files
      ensures r.Ok? <==>
              && IsKey(key) && |payload| <= limits.sampleBytes
              && if key in old(Contents()) then old(Contents())[key] == payload
                 else !readOnly && old(Orderly()) && old(Fits(limits, Contents(), payload))
      ensures r.Ok? ==> Contents() == old(Contents())[key := payload] && r.value == (key !in old(Contents()))
      ensures Steps(limits, old(Contents()), PutOp(key, payload), Contents())
      ensures r.Err? ==> files == old(files)
      ensures old(Orderly()) ==> Orderly()
      ensures r == Err(ContentConflict) <==>
              && IsKey(key) && |payload| <= limits.sampleBytes
              && key in old(Contents()) && old(Contents())[key] != payload && |old(Contents())[key]| <= limits.sampleBytes
      ensures old(Orderly()) ==>
                (r == Err(StoreFull) <==>
                   && IsKey(key) && |payload| <= limits.sampleBytes
                   && key !in old(Contents()) && !old(Fits(limits, Contents(), payload)))
    {
      if !IsKey(key) {
        return Err(KeyInvalid);
      }
      if |payload| > limits.sampleBytes {
        return Err(SampleTooLarge);
      }
      var existing := Read(key);
      if existing.Err? {
        return Err(existing.reason);
      }
      if existing.value.Some? {
        if existing.value.value != payload {
          return Err(ContentConflict);
        }
        assert Contents()[key := payload] == Contents();
        return Ok(false);
      }
      var full := CheckRoom(payload);
      if full.Some? {
        return Err(full.value);
      }
      var failed := WriteNew(key, payload);
      r := if failed.Some? then Err(failed.value) else Ok(true);
    }

    method Get(key: Key) returns (r: Result<Option<Record>, Flaw>)
      ensures r.Ok? ==>
                && IsKey(key)
                && r.value == if key in Contents() then Some(Record(key, Contents()[key])) else None
      ensures r == Err(KeyInvalid) <==> !IsKey(key)
      ensures r == Err(FileTooLarge) <==> IsKey(key) && key in Contents() && |Contents()[key]| > limits.sampleBytes
      ensures r.Err? ==> r.reason == KeyInvalid || r.reason == FileTooLarge
      ensures IsKey(key) && Orderly() ==> r.Ok?
    {
      if !IsKey(key) {
        return Err(KeyInvalid);
      }
      var payload := Read(key);
      match payload {
        case Err(e) => r := Err(e);
        case Ok(None) => r := Ok(None);
        case Ok(Some(found)) => r := Ok(Some(Record(key, found)));
      }
    }

    /** Removes a record whose content is still the one that was handed out. */
    method Ack(record: Record) returns (r: Result<bool, Flaw>)
      modifies this`files
      ensures r.Ok? ==>
                && IsKey(record.key) && !readOnly
                && r.value == (record.key in old(Contents()))
                && (r.value ==> old(Contents())[record.key] == record.payload)
                && Contents() == old(Contents()) - {record.key}
      ensures Steps(limits, old(Contents()), AckOp(record.key, record.payload), Contents())
      ensures r.Err? ==> files == old(files)
      ensures IsKey(record.key) && !readOnly && old(Orderly()) ==>
                (r.Ok? <==> record.key in old(Contents()) ==> old(Contents())[record.key] == record.payload)
      ensures old(Orderly()) ==> Orderly()
    {
      if readOnly {
        return Err(ReadOnly);
      }
      if !IsKey(record.key) {
        return Err(KeyInvalid);
      }
      var payload := Read(record.key);
      if payload.Err? {
        return Err(payload.reason);
      }
      if payload.value.None? {
        assert Contents() - {record.key} == Contents();
        return Ok(false);
      }
      if payload.value.value != record.payload {
        return Err(ContentChanged);
      }
      OneFileLess(limits, files, record.key);
      files := files - {RecordFile(record.key)};
      r := Ok(true);
    }

    method Stats() returns (r: Result<(nat, nat), Flaw>)
      ensures r.Ok? <==> Orderly()
      ensures r.Ok? ==> r.value == (|Contents()|, TotalBytes(Contents()))
    {
      var listed := Entries();
      match listed {
        case Err(e) => r := Err(e);
        case Ok((rows, total)) => r := Ok((|rows|, total));
      }
    }

    /** The first records in order, leaving out those excluded, with their contents. */
    method Pending(limit: int, excluded: set<Key>) returns (r: Result<seq<Record>, Flaw>)
      ensures r.Ok? <==> 1 <= limit <= 256 && |excluded| <= 64 && (forall k | k in excluded :: IsKey(k)) && Orderly()
      ensures r.Ok? ==> IsBatch(r.value, Contents(), limit, excluded)
    {
      if !(1 <= limit <= 256) || |excluded| > 64 {
        return Err(BatchLimitInvalid);
      }
      if exists k | k in excluded :: !IsKey(k) {
        return Err(KeyInvalid);
      }
      var listed := Entries();
      if listed.Err? {
        return Err(listed.reason);
      }
      var chosen := Choose(listed.value.0, limit, excluded);
      ChosenAreStored(listed.value.0, chosen, Contents(), limits);
      var records := ReadChosen(chosen);
      ChosenIsBatch(listed.value.0, chosen, records, Contents(), limit, excluded);
      r := Ok(records);
    }

    method ReadChosen(chosen: seq<Row>) returns (records: seq<Record>)
      requires forall i | 0 <= i < |chosen| :: chosen[i].key in Contents() && |Contents()[chosen[i].key]| <= limits.sampleBytes
      ensures |records| == |chosen|
      ensures forall i | 0 <= i < |chosen| :: records[i] == Record(chosen[i].key, Contents()[chosen[i].key])
    {
      records := [];
      for i := 0 to |chosen|
        invariant |records| == i
        invariant forall k | 0 <= k < i :: records[k] == Record(chosen[k].key, Contents()[chosen[k].key])
      {
        var payload := Read(chosen[i].key);
        match payload {
          case Ok(Some(found)) =>
            records := records + [Record(chosen[i].key, found)];
          case _ =>
            assert false;
        }
      }
    }
  }

  // ----- Batches -----

  /** The records a batch holds: stored and not excluded, in order, none skipped that sorts before
      one of them, and as many as the limit and the store allow. */
  ghost predicate IsBatch(batch: seq<Record>, m: Records, limit: int, excluded: set<Key>) {
    && (forall i, j | 0 <= i < j < |batch| :: KeyLess(batch[i].key, batch[j].key))
    && (forall x | x in batch :: x.key in m && x.key !in excluded && x.payload == m[x.key])
    && |batch| <= limit
    && (forall k | k in m && k !in excluded ::
          (exists i | 0 <= i < |batch| :: batch[i].key == k) ||
          (|batch| == limit && forall i | 0 <= i < |batch| :: KeyLess(batch[i].key, k)))
  }

  function KeysIn(batch: seq<Record>): set<Key> {
    set x | x in batch :: x.key
  }

  /** Acknowledging a batch and asking again moves on in order: nothing sorts before what was taken. */
  lemma BatchesAscend(first: seq<Record>, second: seq<Record>, m: Records, limit: int, more: int)
    requires IsBatch(first, m, limit, {}) && IsBatch(second, m - KeysIn(first), more, {})
    ensures forall x, y | x in first && y in second :: KeyLess(x.key, y.key)
    ensures |first| < limit ==> second == []
  {
    forall y | y in second ensures |first| == limit && forall i | 0 <= i < |first| :: KeyLess(first[i].key, y.key) {
      assert y.key in m && y.key !in KeysIn(first);
      assert forall i | 0 <= i < |first| :: first[i] in first && first[i].key in KeysIn(first);
    }
    assert second != [] ==> second[0] in second;
  }

  function Kept(rows: seq<Row>, excluded: set<Key>): seq<Row> {
    if rows == [] then []
    else
      var front := Kept(rows[..|rows| - 1], excluded);
      if rows[|rows| - 1].key in excluded then front else front + [rows[|rows| - 1]]
  }

  lemma {:induction false} KeptRows(rows: seq<Row>, excluded: set<Key>)
    requires SortedRows(rows)
    ensures SortedRows(Kept(rows, excluded))
    ensures forall x :: x in Kept(rows, excluded) <==> x in rows && x.key !in excluded
  {
    if rows != [] {
      var n := |rows| - 1;
      KeptRows(rows[..n], excluded);
      assert rows == rows[..n] + [rows[n]];
      var front := Kept(rows[..n], excluded);
      forall i | 0 <= i < |front| ensures KeyLess(front[i].key, rows[n].key) {
        assert front[i] in rows[..n];
      }
    }
  }

  method Choose(rows: seq<Row>, limit: nat, excluded: set<Key>) returns (chosen: seq<Row>)
    ensures chosen == if |Kept(rows, excluded)| <= limit then Kept(rows, excluded) else Kept(rows, excluded)[..limit]
    ensures forall x | x in chosen :: x in rows
  {
    chosen := [];
    for i := 0 to |rows|
      invariant chosen == Kept(rows[..i], excluded)
      invariant forall x | x in chosen :: x in rows
    {
      assert rows[..i + 1][..i] == rows[..i];
      if rows[i].key !in excluded {
        chosen := chosen + [rows[i]];
      }
    }
    assert rows[..|rows|] == rows;
    if |chosen| > limit {
      chosen := chosen[..limit];
    }
  }

  lemma ChosenAreStored(rows: seq<Row>, chosen: seq<Row>, m: Records, limits: Limits)
    requires Lists(rows, m) && Within(limits, m) && forall x | x in chosen :: x in rows
    ensures forall i | 0 <= i < |chosen| :: chosen[i].key in m && |m[chosen[i].key]| <= limits.sampleBytes
  {
    forall i | 0 <= i < |chosen| ensures chosen[i].key in m && |m[chosen[i].key]| <= limits.sampleBytes {
      assert chosen[i] in rows;
    }
  }

  lemma ChosenIsBatch(rows: seq<Row>, chosen: seq<Row>, records: seq<Record>, m: Records, limit: nat, excluded: set<Key>)
    requires Lists(rows, m) && |records| == |chosen|
    requires chosen == if |Kept(rows, excluded)| <= limit then Kept(rows, excluded) else Kept(rows, excluded)[..limit]
    requires forall i | 0 <= i < |chosen| :: chosen[i].key in m && records[i] == Record(chosen[i].key, m[chosen[i].key])
    ensures IsBatch(records, m, limit, excluded)
  {
    KeptRows(rows, excluded);
    var kept := Kept(rows, excluded);
    forall k | k in m && k !in excluded
      ensures (exists i | 0 <= i < |records| :: records[i].key == k) ||
              (|records| == limit && forall i | 0 <= i < |records| :: KeyLess(records[i].key, k))
    {
      assert Row(k, |m[k]|) in kept;
      var j :| 0 <= j < |kept| && kept[j] == Row(k, |m[k]|);
      if j < |chosen| {
        assert records[j].key == k;
      } else {
        assert forall i | 0 <= i < |records| :: KeyLess(kept[i].key, kept[j].key);
      }
    }
    forall x | x in records ensures x.key in m && x.key !in excluded && x.payload == m[x.key] {
      var i :| 0 <= i < |records| && records[i] == x;
      assert chosen[i] in kept;
    }
  }
}
