/**
 Reading the core monitor's observations (`core_summary` in scripts/backup-health-summary.py), and
 the contract between writer and reader over any run of the monitor.
 */
module CoreSummary {
  import opened Prelude
  import opened CoreEvidence

  datatype Reason = Unusable | ClockUnsafe | Stale | QueryUnavailable | CurrentObservation

  datatype Summary = Summary(verdict: Option<Status>, reason: Reason, ages: map<int, Option<real>>)

  predicate Numeric(x: real) {
    0.0 <= x <= LAST_TIME
  }

  predicate Provenance(o: Observation) {
    match o.query
    case Answered => o.evidence == FromInventory && o.inventoryAt == Some(o.observedAt)
    case NoAnswer =>
      && o.evidence != FromInventory
      && (o.evidence == FromCache ==> o.inventoryAt.Some?) && (o.evidence == NoEvidence ==> o.inventoryAt.None?)
  }

  predicate TimesInOrder(o: Observation, now: real) {
    && Numeric(o.observedAt) && o.observedAt <= now
    && (o.inventoryAt.Some? ==> Numeric(o.inventoryAt.value) && o.inventoryAt.value <= o.observedAt)
  }

  predicate SoundPoint(o: Observation, p: Point) {
    if p.ctime.None? then p.age.None?
    else
      var ctime := p.ctime.value as real;
      && Numeric(ctime) && p.age.Some? && Numeric(p.age.value)
      && o.inventoryAt.Some? && ctime <= o.inventoryAt.value
      && -TOLERANCE <= o.observedAt - ctime - p.age.value <= TOLERANCE
  }

  /** Everything the reader checks before it uses an observation. */
  predicate Acceptable(o: Observation, now: real) {
    && TimesInOrder(o, now) && Provenance(o)
    && o.points.Keys == (set ctid | ctid in CTIDS)
    && (forall ctid | ctid in o.points :: SoundPoint(o, o.points[ctid]))
    && (o.status == Healthy ==> forall ctid | ctid in o.points :: o.points[ctid].ctime.Some?)
  }

  function AgesOf(o: Observation, now: real): map<int, Option<real>> {
    map ctid | ctid in o.points :: AgeAt(o.points[ctid], now)
  }

  function AgeAt(p: Point, now: real): Option<real> {
    if p.ctime.Some? then Some(now - p.ctime.value as real) else None
  }

  /** The reader's loop over the containers; none when some point is unsound. */
  method Project(o: Observation, ctids: seq<int>, now: real) returns (ages: Option<map<int, Option<real>>>)
    requires forall k | 0 <= k < |ctids| :: ctids[k] in o.points
    ensures ages.Some? <==> forall k | 0 <= k < |ctids| :: SoundPoint(o, o.points[ctids[k]])
    ensures ages.Some? ==>
              && ages.value.Keys == (set ctid | ctid in ctids)
              && forall ctid | ctid in ages.value :: ages.value[ctid] == AgeAt(o.points[ctid], now)
  {
    var found: map<int, Option<real>> := map[];
    for i := 0 to |ctids|
      invariant forall k | 0 <= k < i :: SoundPoint(o, o.points[ctids[k]])
      invariant found.Keys == (set k | 0 <= k < i :: ctids[k])
      invariant forall ctid | ctid in found :: ctid in o.points && found[ctid] == AgeAt(o.points[ctid], now)
    {
      var ctid := ctids[i];
      if !SoundPoint(o, o.points[ctid]) {
        return None;
      }
      found := found[ctid := AgeAt(o.points[ctid], now)];
    }
    ages := Some(found);
  }

  lemma MembersAreKeys(o: Observation)
    requires o.points.Keys == (set ctid | ctid in CTIDS)
    ensures forall k | 0 <= k < |CTIDS| :: CTIDS[k] in o.points
    ensures (forall k | 0 <= k < |CTIDS| :: SoundPoint(o, o.points[CTIDS[k]])) <==>
            forall ctid | ctid in o.points :: SoundPoint(o, o.points[ctid])
  {
    assert forall k | 0 <= k < |CTIDS| :: CTIDS[k] in CTIDS;
  }

  method Summarise(observation: Option<Observation>, now: real, clockSafe: bool) returns (s: Summary)
    ensures s.reason == Unusable <==> observation.None? || !Acceptable(observation.value, now)
    ensures s.reason != Unusable ==> s.ages == AgesOf(observation.value, now)
    ensures s.verdict.Some? <==>
            && observation.Some? && Acceptable(observation.value, now) && clockSafe
            && now - observation.value.observedAt <= CORE_FRESHNESS && observation.value.query == Answered
    ensures s.verdict.Some? ==> s.verdict == Some(observation.value.status)
  {
    if observation.None? {
      return Summary(None, Unusable, map[]);
    }
    var o := observation.value;
    if !TimesInOrder(o, now) || !Provenance(o) || o.points.Keys != (set ctid | ctid in CTIDS) {
      return Summary(None, Unusable, map[]);
    }
    MembersAreKeys(o);
    var ages := Project(o, CTIDS, now);
    if ages.None? || (o.status == Healthy && exists ctid | ctid in ages.value :: ages.value[ctid].None?) {
      return Summary(None, Unusable, map[]);
    }
    assert ages.value == AgesOf(o, now);
    if !clockSafe {
      s := Summary(None, ClockUnsafe, ages.value);
    } else if now - o.observedAt > CORE_FRESHNESS {
      s := Summary(None, Stale, ages.value);
    } else if o.query != Answered {
      s := Summary(None, QueryUnavailable, ages.value);
    } else {
      s := Summary(Some(o.status), CurrentObservation, ages.value);
    }
  }

  // ----- Runs of the monitor -----

  datatype Run = Run(content: Option<seq<Row>>, now: real)

  function Before(seen: seq<Observation>, i: nat): Option<Observation>
    requires i <= |seen|
  {
    if i == 0 then None else Some(seen[i - 1])
  }

  /** What successive accepted runs record from an empty state. Nothing is assumed of how the clock
      moves from run to run, so this covers every run the monitor's clock check lets through. */
  predicate Recorded(runs: seq<Run>, seen: seq<Observation>) {
    && |runs| == |seen|
    && forall i {:trigger runs[i]} | 0 <= i < |runs| ::
         Numeric(runs[i].now) && Records(Before(seen, i), runs[i].content, runs[i].now, seen[i])
  }

  /** What every stored observation satisfies, apart from names that claim a time before 1970. */
  predicate WellRecorded(o: Observation) {
    && TimesInOrder(o, o.observedAt) && Provenance(o)
    && o.points.Keys == (set ctid | ctid in CTIDS)
    && forall ctid | ctid in o.points ::
         && o.points[ctid] == PointAt(o.points[ctid].ctime, o.observedAt)
         && (o.points[ctid].ctime.Some? ==> o.inventoryAt.Some? && o.points[ctid].ctime.value as real <= o.inventoryAt.value)
  }

  lemma AnswerIsWellRecorded(content: seq<Row>, now: real, o: Observation)
    requires Answers(content, now, o) && Numeric(now)
    ensures WellRecorded(o)
  {
    forall ctid | ctid in o.points
      ensures o.points[ctid] == PointAt(o.points[ctid].ctime, o.observedAt)
      ensures o.points[ctid].ctime.Some? ==> o.points[ctid].ctime.value as real <= now
    {
      RowsOf(content, ctid, now);
    }
  }

  lemma SilenceIsWellRecorded(previous: Option<Observation>, now: real)
    requires (previous.Some? ==> WellRecorded(previous.value)) && Numeric(now)
    ensures WellRecorded(RecordSilence(previous, now))
  {
  }

  lemma {:induction false} RunsAreWellRecorded(runs: seq<Run>, seen: seq<Observation>, n: nat)
    requires Recorded(runs, seen) && n < |runs|
    ensures WellRecorded(seen[n])
  {
    if n > 0 {
      RunsAreWellRecorded(runs, seen, n - 1);
    }
    assert Records(Before(seen, n), runs[n].content, runs[n].now, seen[n]);
    RecordIsWellRecorded(Before(seen, n), runs[n], seen[n]);
  }

  lemma RecordIsWellRecorded(previous: Option<Observation>, run: Run, o: Observation)
    requires (previous.Some? ==> WellRecorded(previous.value)) && Numeric(run.now)
    requires Records(previous, run.content, run.now, o)
    ensures WellRecorded(o)
  {
    if run.content.Some? {
      AnswerIsWellRecorded(run.content.value, run.now, o);
    } else {
      SilenceIsWellRecorded(previous, run.now);
    }
  }

  /** The one gap between writer and reader: a healthy report that lacks a point. */
  predicate LacksPoint(o: Observation) {
    o.status == Healthy && exists ctid | ctid in o.points :: o.points[ctid].ctime.None?
  }

  /** A volume whose name claims a time before 1970. */
  predicate HasAncientPoint(o: Observation) {
    exists ctid | ctid in o.points :: o.points[ctid].ctime.Some? && o.points[ctid].ctime.value < 0
  }

  /** After any run of queries that answer or fail, the stored observation is accepted by every later
      reader, except exactly when it is a healthy report that lacks a point or has one from before 1970. */
  lemma StoredIsAccepted(runs: seq<Run>, seen: seq<Observation>, later: real)
    requires Recorded(runs, seen) && runs != [] && seen[|seen| - 1].observedAt <= later
    ensures var o := seen[|seen| - 1];
            Acceptable(o, later) <==> !LacksPoint(o) && !HasAncientPoint(o)
  {
    RunsAreWellRecorded(runs, seen, |runs| - 1);
    WellRecordedIsAccepted(seen[|seen| - 1], later);
  }

  lemma WellRecordedIsAccepted(o: Observation, later: real)
    requires WellRecorded(o) && o.observedAt <= later
    ensures Acceptable(o, later) <==> !LacksPoint(o) && !HasAncientPoint(o)
  {
    if !HasAncientPoint(o) {
      forall ctid | ctid in o.points ensures SoundPoint(o, o.points[ctid]) {
        assert o.points[ctid] == PointAt(o.points[ctid].ctime, o.observedAt);
      }
    } else {
      var ctid :| ctid in o.points && o.points[ctid].ctime.Some? && o.points[ctid].ctime.value < 0;
      assert !SoundPoint(o, o.points[ctid]);
    }
  }

  /** A healthy report lacks a point only before the first due day, for a container that has no
      baseline to vouch for it. */
  lemma LackIsEarly(content: seq<Row>, now: real, o: Observation, ctid: int)
    requires Answers(content, now, o) && o.status == Healthy && ctid in CTIDS && o.points[ctid].ctime.None?
    ensures !Due(now) && Manual(ctid).None?
  {
    assert HasBaseline(content, ctid, now);
    BaselineIsValid(content, ctid, now);
    TodayIsValid(content, ctid, now);
    assert Due(now) ==> Today(content, ctid, now).Some?;
  }

  /** What the reader will refuse, as the last inventory shows it: the newest valid archive of some
      container is from before 1970, or a container has none although all is well. */
  predicate Readable(content: seq<Row>, now: real) {
    forall ctid | ctid in CTIDS ::
      var last := LastValid(content, ctid, now);
      if last.Some? then last.value >= 0 else StatusOf(content, now) != Healthy
  }

  /** The same exception in terms of what the last run was given: only an answered query can end in
      an observation that is refused later, and it does just when its inventory is not readable. */
  lemma AcceptedByInput(runs: seq<Run>, seen: seq<Observation>, later: real)
    requires Recorded(runs, seen) && runs != [] && seen[|seen| - 1].observedAt <= later
    ensures var last := runs[|runs| - 1];
            Acceptable(seen[|seen| - 1], later) <==> last.content.Some? ==> Readable(last.content.value, last.now)
  {
    var n := |runs| - 1;
    var run, o := runs[n], seen[n];
    assert Records(Before(seen, n), run.content, run.now, o);
    StoredIsAccepted(runs, seen, later);
    if run.content.Some? {
      assert forall ctid | ctid in CTIDS :: o.points[ctid] == PointAt(LastValid(run.content.value, ctid, run.now), run.now);
    }
  }

  predicate FromEpochOn(content: seq<Row>) {
    forall r | r in content && r.ctime.Some? :: r.ctime.value >= 0
  }

  /** Once archives are due, an inventory of times from 1970 on is always readable. */
  lemma DueIsReadable(content: seq<Row>, now: real)
    requires Due(now) && FromEpochOn(content)
    ensures Readable(content, now)
  {
    forall ctid | ctid in CTIDS
      ensures var last := LastValid(content, ctid, now);
              if last.Some? then last.value >= 0 else StatusOf(content, now) != Healthy
    {
      RowsOf(content, ctid, now);
      TodayIsValid(content, ctid, now);
    }
  }

  lemma DueIsAccepted(runs: seq<Run>, seen: seq<Observation>, later: real)
    requires Recorded(runs, seen) && runs != [] && seen[|seen| - 1].observedAt <= later
    requires var last := runs[|runs| - 1];
             Due(last.now) && (last.content.Some? ==> FromEpochOn(last.content.value))
    ensures Acceptable(seen[|seen| - 1], later)
  {
    var last := runs[|runs| - 1];
    AcceptedByInput(runs, seen, later);
    if last.content.Some? {
      DueIsReadable(last.content.value, last.now);
    }
  }

  // ----- A healthy report that is refused -----

  function Baseline(ctid: int, epoch: int): Row {
    Row(ctid, Some(epoch), Archive(ctid, epoch), true, true)
  }

  /** The four protected baselines and nothing else, on the evening before archives are due. */
  const EARLY_INVENTORY := [Baseline(1200, 1735735382), Baseline(1201, 1735732544), Baseline(1202, 1735735590),
                           Baseline(1204, 1735735842)]
  const EARLY := 1735740000.0

  lemma EarlyIsHealthy()
    ensures !Due(EARLY) && StatusOf(EARLY_INVENTORY, EARLY) == Healthy
    ensures LastValid(EARLY_INVENTORY, 1203, EARLY).None?
  {
    var rows := EARLY_INVENTORY;
    assert rows[0] in rows && rows[1] in rows && rows[2] in rows && rows[3] in rows;
    forall ctid | ctid in CTIDS ensures HasBaseline(rows, ctid, EARLY) {
      if ctid != 1203 {
        var k := if ctid < 1203 then ctid - 1200 else 3;
        assert Some(rows[k].volume) == Manual(ctid) && rows[k].isProtected && ValidRow(rows[k], ctid, EARLY);
      }
    }
    RowsOf(rows, 1203, EARLY);
  }

  /** The monitor calls that inventory healthy, and no reader ever accepts what it stores. */
  method EarlyReportIsRefused() returns (o: Observation)
    ensures o.status == Healthy && Recorded([Run(Some(EARLY_INVENTORY), EARLY)], [o])
    ensures forall later :: !Acceptable(o, later)
  {
    var monitor := new Monitor();
    var ok := monitor.Run(Some(EARLY_INVENTORY), EARLY);
    o := monitor.last.value;
    EarlyIsHealthy();
    assert 1203 in CTIDS && o.points[1203] == PointAt(None, EARLY);
  }

  lemma BaselineIsValid(content: seq<Row>, ctid: int, now: real)
    ensures Manual(ctid).Some? && HasBaseline(content, ctid, now) ==> LastValid(content, ctid, now).Some?
  {
    RowsOf(content, ctid, now);
    if Manual(ctid).Some? && HasBaseline(content, ctid, now) {
      var r :| r in content && Some(r.volume) == Manual(ctid) && r.isProtected && ValidRow(r, ctid, now);
      assert r in ValidRows(content, ctid, now);
    }
  }

  lemma TodayIsValid(content: seq<Row>, ctid: int, now: real)
    ensures Today(content, ctid, now).Some? ==> LastValid(content, ctid, now).Some?
  {
    RowsOf(content, ctid, now);
    if Today(content, ctid, now).Some? {
      assert Latest(DatedRows(content, ctid)).value in ValidRows(content, ctid, now);
    }
  }

  /** A failed query is recorded as failed, and neither invents a point nor makes one newer. */
  lemma SilenceInventsNothing(previous: Option<Observation>, now: real, ctid: int)
    requires ctid in CTIDS
    ensures var o := RecordSilence(previous, now);
            && o.query == NoAnswer && o.status == Failed && o.evidence != FromInventory
            && (o.inventoryAt.Some? ==> previous.Some? && o.inventoryAt == previous.value.inventoryAt)
            && ctid in o.points
            && (o.points[ctid].ctime.Some? ==>
                  previous.Some? && ctid in previous.value.points && o.points[ctid].ctime == previous.value.points[ctid].ctime)
  {
  }

  /** What a healthy verdict means: the last run's query answered at most twelve minutes ago, and
      then every container had a valid archive, from today's window once archives are due. */
  lemma HealthyMeansArchived(runs: seq<Run>, seen: seq<Observation>, now: real, ctid: int)
    requires Recorded(runs, seen) && runs != []
    requires var o := seen[|seen| - 1];
             Acceptable(o, now) && now - o.observedAt <= CORE_FRESHNESS && o.query == Answered && o.status == Healthy
    requires ctid in CTIDS
    ensures var last := runs[|runs| - 1];
            && last.content.Some? && 0.0 <= now - last.now <= CORE_FRESHNESS
            && exists r | r in last.content.value ::
                 && ValidRow(r, ctid, last.now)
                 && (Due(last.now) ==> r.ctime.value >= LocalTime(LocalDay(last.now), WINDOW_START))
  {
    var last, o := runs[|runs| - 1], seen[|seen| - 1];
    assert Records(Before(seen, |seen| - 1), last.content, last.now, o);
    var content := last.content.value;
    RowsOf(content, ctid, last.now);
    if Due(last.now) {
      assert Today(content, ctid, last.now).Some?;
      var row := Latest(DatedRows(content, ctid)).value;
      assert row in content;
    } else {
      assert o.points[ctid] == PointAt(LastValid(content, ctid, last.now), last.now);
      var row := Latest(ValidRows(content, ctid, last.now)).value;
      assert row in content;
    }
  }
}
