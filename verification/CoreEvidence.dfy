/**
 The core backup monitor and its reader (`inspect`, `record_observation` and the clock check of `run`
 in scripts/core-pbs-monitor.py, `core_summary` in scripts/backup-health-summary.py): what the one
 writes, the other accepts. Times are exact numbers; a volume name is carried as what it denotes.
 */
module CoreEvidence {
  import opened Prelude

  const CTIDS: seq<int> := [1200, 1201, 1202, 1203, 1204]
  const DAY := 86400
  const KST := 32400
  const WINDOW_START := 11820
  const DEADLINE := 16200
  const FIRST_DUE_DAY := 20090
  const LAST_TIME := 4102444800.0
  const CORE_FRESHNESS := 720.0
  const TOLERANCE := 2.0

  // ----- The inventory -----

  /** A volume name: a container and the time in the name, or a name of another form. */
  datatype Volume = Archive(ctid: int, epoch: int) | OtherVolume

  /** One inventory row; `intact` covers format, type, encryption key and size. */
  datatype Row = Row(vmid: int, ctime: Option<int>, volume: Volume, intact: bool, isProtected: bool)

  /** The protected baselines of the first day; one container has none. */
  function Manual(ctid: int): Option<Volume> {
    if ctid == 1200 then Some(Archive(1200, 1735735382))
    else if ctid == 1201 then Some(Archive(1201, 1735732544))
    else if ctid == 1202 then Some(Archive(1202, 1735735590))
    else if ctid == 1204 then Some(Archive(1204, 1735735842))
    else None
  }

  predicate ValidRow(r: Row, ctid: int, now: real) {
    && r.vmid == ctid && r.ctime.Some? && r.volume == Archive(ctid, r.ctime.value) && r.intact
    && r.ctime.value as real <= now
  }

  function LocalDay(now: real): int {
    (now.Floor + KST) / DAY
  }

  function LocalTime(day: int, seconds: int): int {
    day * DAY + seconds - KST
  }

  predicate Due(now: real) {
    LocalDay(now) >= FIRST_DUE_DAY
  }

  function ValidRows(content: seq<Row>, ctid: int, now: real): seq<Row> {
    if content == [] then []
    else
      var n := |content| - 1;
      var front := ValidRows(content[..n], ctid, now);
      if ValidRow(content[n], ctid, now) then front + [content[n]] else front
  }

  /** The rows of a container that could be today's: dated, and not the baseline. */
  function DatedRows(content: seq<Row>, ctid: int): seq<Row> {
    if content == [] then []
    else
      var n := |content| - 1;
      var front := DatedRows(content[..n], ctid);
      if content[n].vmid == ctid && content[n].ctime.Some? && Manual(ctid) != Some(content[n].volume) then front + [content[n]]
      else front
  }

  /** The first of the latest rows. */
  function Latest(rows: seq<Row>): (r: Option<Row>)
    requires forall i | 0 <= i < |rows| :: rows[i].ctime.Some?
    ensures r.None? <==> rows == []
    ensures r.Some? ==> r.value in rows && forall x | x in rows :: x.ctime.value <= r.value.ctime.value
  {
    if rows == [] then None
    else
      var n := |rows| - 1;
      var best := Latest(rows[..n]);
      assert rows == rows[..n] + [rows[n]];
      if best.None? || rows[n].ctime.value > best.value.ctime.value then Some(rows[n]) else best
  }

  lemma {:induction false} RowsOf(content: seq<Row>, ctid: int, now: real)
    ensures forall r :: r in ValidRows(content, ctid, now) <==> r in content && ValidRow(r, ctid, now)
    ensures forall r :: r in DatedRows(content, ctid) <==>
                r in content && r.vmid == ctid && r.ctime.Some? && Manual(ctid) != Some(r.volume)
    ensures forall i | 0 <= i < |ValidRows(content, ctid, now)| :: ValidRows(content, ctid, now)[i].ctime.Some?
    ensures forall i | 0 <= i < |DatedRows(content, ctid)| :: DatedRows(content, ctid)[i].ctime.Some?
  {
    if content != [] {
      var n := |content| - 1;
      RowsOf(content[..n], ctid, now);
      assert content == content[..n] + [content[n]];
    }
  }

  predicate HasBaseline(content: seq<Row>, ctid: int, now: real) {
    Manual(ctid).None? || exists r | r in content :: Some(r.volume) == Manual(ctid) && r.isProtected && ValidRow(r, ctid, now)
  }

  /** Today's archive: the latest dated row is valid and not from before the window. */
  function Today(content: seq<Row>, ctid: int, now: real): Option<int> {
    RowsOf(content, ctid, now);
    var row := Latest(DatedRows(content, ctid));
    if row.Some? && ValidRow(row.value, ctid, now) && row.value.ctime.value >= LocalTime(LocalDay(now), WINDOW_START)
      then row.value.ctime else None
  }

  function LastValid(content: seq<Row>, ctid: int, now: real): Option<int> {
    RowsOf(content, ctid, now);
    var row := Latest(ValidRows(content, ctid, now));
    if row.Some? then row.value.ctime else None
  }

  // ----- Inspecting it -----

  datatype Status = Healthy | Failed | Pending

  datatype Point = Point(ctime: Option<int>, age: Option<real>)

  datatype Report = Report(status: Status, latest: map<int, int>, points: map<int, Point>)

  function PointAt(ctime: Option<int>, now: real): Point {
    if ctime.Some? then Point(ctime, Some(now - ctime.value as real)) else Point(None, None)
  }

  predicate AllBaselines(content: seq<Row>, ctids: seq<int>, now: real) {
    forall ctid | ctid in ctids :: HasBaseline(content, ctid, now)
  }

  predicate AllToday(content: seq<Row>, ctids: seq<int>, now: real) {
    forall ctid | ctid in ctids :: Today(content, ctid, now).Some?
  }

  /** The last valid point of each container. */
  predicate PointsOf(content: seq<Row>, ctids: seq<int>, now: real, points: map<int, Point>) {
    && points.Keys == (set ctid | ctid in ctids)
    && forall ctid | ctid in points :: points[ctid] == PointAt(LastValid(content, ctid, now), now)
  }

  /** Today's archives, once they are due. */
  predicate LatestOf(content: seq<Row>, ctids: seq<int>, now: real, latest: map<int, int>) {
    && latest.Keys == (set ctid | ctid in ctids && Due(now) && Today(content, ctid, now).Some?)
    && forall ctid | ctid in latest :: Today(content, ctid, now) == Some(latest[ctid])
  }

  lemma OneMoreContainer(content: seq<Row>, ctids: seq<int>, now: real, points: map<int, Point>, latest: map<int, int>, ctid: int)
    requires PointsOf(content, ctids, now, points) && LatestOf(content, ctids, now, latest)
    ensures PointsOf(content, ctids + [ctid], now, points[ctid := PointAt(LastValid(content, ctid, now), now)])
    ensures var today := Today(content, ctid, now);
            LatestOf(content, ctids + [ctid], now, if Due(now) && today.Some? then latest[ctid := today.value] else latest)
    ensures AllBaselines(content, ctids + [ctid], now) <==> AllBaselines(content, ctids, now) && HasBaseline(content, ctid, now)
    ensures AllToday(content, ctids + [ctid], now) <==> AllToday(content, ctids, now) && Today(content, ctid, now).Some?
  {
    assert forall x :: x in ctids + [ctid] <==> x in ctids || x == ctid;
  }

  method InspectEach(content: seq<Row>, ctids: seq<int>, now: real)
    returns (points: map<int, Point>, latest: map<int, int>, lost: bool, late: bool)
    ensures PointsOf(content, ctids, now, points) && LatestOf(content, ctids, now, latest)
    ensures lost <==> !AllBaselines(content, ctids, now)
    ensures late <==> Due(now) && !AllToday(content, ctids, now)
  {
    points, latest, lost, late := map[], map[], false, false;
    for i := 0 to |ctids|
      invariant PointsOf(content, ctids[..i], now, points) && LatestOf(content, ctids[..i], now, latest)
      invariant lost <==> !AllBaselines(content, ctids[..i], now)
      invariant late <==> Due(now) && !AllToday(content, ctids[..i], now)
    {
      var ctid := ctids[i];
      OneMoreContainer(content, ctids[..i], now, points, latest, ctid);
      assert ctids[..i + 1] == ctids[..i] + [ctid];
      points := points[ctid := PointAt(LastValid(content, ctid, now), now)];
      if !HasBaseline(content, ctid, now) {
        lost := true;
      }
      if Due(now) {
        var today := Today(content, ctid, now);
        if today.None? {
          late := true;
        } else {
          latest := latest[ctid := today.value];
        }
      }
    }
    assert ctids[..|ctids|] == ctids;
  }

  function StatusOf(content: seq<Row>, now: real): Status {
    if !AllBaselines(content, CTIDS, now) then Failed
    else if !Due(now) || AllToday(content, CTIDS, now) then Healthy
    else if now >= LocalTime(LocalDay(now), DEADLINE) as real then Failed
    else Pending
  }

  predicate Inspected(content: seq<Row>, now: real, r: Report) {
    && r.status == StatusOf(content, now)
    && PointsOf(content, CTIDS, now, r.points) && LatestOf(content, CTIDS, now, r.latest)
  }

  method Inspect(content: seq<Row>, now: real) returns (r: Report)
    ensures Inspected(content, now, r)
  {
    var points, latest, lost, late := InspectEach(content, CTIDS, now);
    var status := if lost || (late && now >= LocalTime(LocalDay(now), DEADLINE) as real) then Failed
                  else if late then Pending else Healthy;
    r := Report(status, latest, points);
  }

  // ----- Recording what was seen -----

  datatype Query = Answered | NoAnswer

  datatype Evidence = FromInventory | FromCache | NoEvidence

  datatype Observation = Observation(
    status: Status, observedAt: real, inventoryAt: Option<real>, query: Query, evidence: Evidence, points: map<int, Point>)

  const UNKNOWN := Point(None, None)

  /** A point carried over from the previous observation, if it is usable at this time. */
  function Carried(points: map<int, Point>, ctid: int, now: real): Point {
    if ctid in points && points[ctid].ctime.Some? && 0.0 <= points[ctid].ctime.value as real <= now
    then PointAt(points[ctid].ctime, now) else UNKNOWN
  }

  function CachedAt(previous: Option<Observation>, now: real): Option<real> {
    if previous.Some? && previous.value.inventoryAt.Some? && 0.0 <= previous.value.inventoryAt.value <= now
    then previous.value.inventoryAt else None
  }

  function RecordAnswer(r: Report, now: real): Observation {
    Observation(r.status, now, Some(now), Answered, FromInventory, r.points)
  }

  function RecordSilence(previous: Option<Observation>, now: real): Observation {
    var inventory := CachedAt(previous, now);
    var cached := if inventory.Some? then previous.value.points else map[];
    Observation(Failed, now, inventory, NoAnswer, if inventory.Some? then FromCache else NoEvidence,
                map ctid | ctid in CTIDS :: Carried(cached, ctid, now))
  }

  /** The monitor's stored state: when it last checked, and what it last saw. */
  class Monitor {
    var lastCheck: Option<real>
    var last: Option<Observation>

    constructor ()
      ensures lastCheck == None && last == None
    {
      lastCheck, last := None, None;
    }

    /** One run; no content stands for a failed query, and a clock set back by more than a second
        is refused. */
    method Run(content: Option<seq<Row>>, now: real) returns (ok: bool)
      modifies this
      ensures ok <==> old(lastCheck).None? || now + 1.0 >= old(lastCheck).value
      ensures !ok ==> last == old(last) && lastCheck == old(lastCheck)
      ensures ok ==> lastCheck == Some(now) && last.Some? && Records(old(last), content, now, last.value)
    {
      if lastCheck.Some? && now + 1.0 < lastCheck.value {
        return false;
      }
      if content.Some? {
        var report := Inspect(content.value, now);
        last := Some(RecordAnswer(report, now));
      } else {
        last := Some(RecordSilence(last, now));
      }
      lastCheck := Some(now);
      ok := true;
    }
  }

  predicate Answers(content: seq<Row>, now: real, o: Observation) {
    && o.observedAt == now && o.inventoryAt == Some(now) && o.query == Answered && o.evidence == FromInventory
    && o.status == StatusOf(content, now) && PointsOf(content, CTIDS, now, o.points)
  }

  /** What one accepted run leaves behind. */
  predicate Records(previous: Option<Observation>, content: Option<seq<Row>>, now: real, o: Observation) {
    if content.Some? then Answers(content.value, now, o) else o == RecordSilence(previous, now)
  }
}
