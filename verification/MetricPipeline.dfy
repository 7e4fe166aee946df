/**
 The parser and the comparison of scripts/lib/inference_metrics.py together: from the lines of two
 payloads to one report.
 */
module MetricPipeline {
  import opened Prelude
  import opened Numbers
  import opened MetricSnapshot
  import opened SnapshotLines
  import opened SnapshotParser
  import opened MetricVocabulary
  import opened SeriesDelta
  import I = MetricInterval

  /** What the caller hands to the parser. */
  datatype Scrape = Scrape(source: SourceState, observedAt: real, identity: Identity, payload: Option<seq<string>>)

  ghost predicate Parses(v: Vocabulary, read: string -> Option<real>, s: Scrape)
    requires Consistent(v)
  {
    && LegalWithin(s.observedAt, LATEST_TIME) && ValidIdentity(s.identity) && (s.payload.Some? <==> s.source == Observed)
    && (s.payload.Some? ==>
          && |s.payload.value| <= MAX_LINES && ReadLines(v, read, s.payload.value).Ok?
          && Finishable(v, ReadLines(v, read, s.payload.value).value))
  }

  /** The series of a kind that a scrape tells of, for one engine. */
  ghost function Told(v: Vocabulary, read: string -> Option<real>, s: Option<Scrape>, g: EngineKey, kind: Kind): set<Key>
    requires Consistent(v) && (s.Some? ==> Parses(v, read, s.value))
  {
    if s.None? || s.value.payload.None? then {}
    else set p | p in OfKind(v, ReadLines(v, read, s.value.payload.value).value, g, kind) :: p.1
  }

  ghost function ToldEngines(v: Vocabulary, read: string -> Option<real>, s: Option<Scrape>): set<EngineKey>
    requires Consistent(v) && (s.Some? ==> Parses(v, read, s.value))
  {
    if s.None? || s.value.payload.None? then {}
    else set p | p in SeriesOf(ReadLines(v, read, s.value.payload.value).value) :: p.0
  }

  function Deltas(e: I.EngineReport, kind: Kind): seq<Delta>
    requires kind != Gauge
  {
    if kind == Counter then e.counters else e.distributions
  }

  /** The snapshot made of a scrape. */
  ghost predicate Made(v: Vocabulary, read: string -> Option<real>, s: Option<Scrape>, made: Option<Snapshot>)
    requires Consistent(v)
  {
    && made.Some? == s.Some?
    && (s.Some? ==>
          && Parses(v, read, s.value) && ValidSnapshot(v, made.value)
          && (s.value.payload.Some? ==> ShowsAll(v, ReadLines(v, read, s.value.payload.value).value, made.value))
          && (s.value.payload.None? ==> made.value.engines == []))
  }

  method Make(v: Vocabulary, read: string -> Option<real>, s: Scrape) returns (made: Option<Snapshot>)
    requires Consistent(v)
    ensures made.Some? <==> Parses(v, read, s)
    ensures made.Some? ==> Made(v, read, Some(s), made) && made.value.observedAt == s.observedAt
  {
    var r := ParseSnapshot(v, read, s.source, s.observedAt, s.identity, s.payload);
    made := if r.Ok? then Some(r.value) else None;
  }

  lemma KeysAreTold(v: Vocabulary, read: string -> Option<real>, s: Option<Scrape>, made: Option<Snapshot>, g: EngineKey,
                    kind: Kind)
    requires Consistent(v) && Made(v, read, s, made)
    ensures I.Keys(I.OldItems(I.FindEngine(I.OldEngines(made), g), kind)) == Told(v, read, s, g, kind)
    ensures EngineKeys(I.OldEngines(made)) == ToldEngines(v, read, s)
  {
    var prior := I.FindEngine(I.OldEngines(made), g);
    if s.Some? && s.value.payload.Some? {
      var d := ReadLines(v, read, s.value.payload.value).value;
      assert EngineKeys(made.value.engines) == ToldEngines(v, read, s);
      if prior.Some? {
        var items := Items(prior.value, kind);
        assert ShowsItems(v, d, g, kind, items);
        forall k | k in I.Keys(items) ensures k in Told(v, read, s, g, kind) {
          var x :| x in items && x.key == k;
          assert (g, k) in OfKind(v, d, g, kind);
        }
        forall p | p in OfKind(v, d, g, kind) ensures p.1 in I.Keys(items) {
          var x :| x in items && (g, x.key) == p;
        }
      } else {
        assert forall p | p in SeriesOf(d) :: p.0 != g;
      }
    }
  }

  /** Every counter and histogram series that either payload tells of, for an engine that is still
      there, is accounted for once; the other engines are named as missing. */
  ghost predicate Covered(v: Vocabulary, read: string -> Option<real>, earlier: Option<Scrape>, later: Scrape, r: I.Report)
    requires Consistent(v) && Parses(v, read, later) && (earlier.Some? ==> Parses(v, read, earlier.value))
  {
    && (set e | e in r.engines :: e.key) == ToldEngines(v, read, Some(later))
    && r.missing == ToldEngines(v, read, earlier) - ToldEngines(v, read, Some(later))
    && forall e, kind | e in r.engines && kind != Gauge ::
         && I.DistinctDeltas(Deltas(e, kind))
         && I.DeltaKeys(Deltas(e, kind)) ==
            Told(v, read, earlier, e.key, kind) + Told(v, read, Some(later), e.key, kind)
  }

  lemma EngineIsCovered(v: Vocabulary, read: string -> Option<real>, earlier: Option<Scrape>, later: Scrape,
                        before: Option<Snapshot>, after: Snapshot, w: Window, reason: Option<Reason>, i: nat,
                        e: I.EngineReport, kind: Kind)
    requires Consistent(v) && Made(v, read, earlier, before) && Made(v, read, Some(later), Some(after))
    requires I.AllMeasured(I.OldEngines(before)) && I.AllMeasured(after.engines) && (reason.None? ==> w.elapsed.Some?)
    requires i < |after.engines| && kind != Gauge
    requires I.IsEngineReport(I.FindEngine(I.OldEngines(before), after.engines[i].key), after.engines[i], w, reason, e)
    ensures I.DistinctDeltas(Deltas(e, kind))
    ensures I.DeltaKeys(Deltas(e, kind)) == Told(v, read, earlier, e.key, kind) + Told(v, read, Some(later), e.key, kind)
  {
    var engine := after.engines[i];
    var prior := I.FindEngine(I.OldEngines(before), engine.key);
    assert engine in after.engines && ValidEngine(v, engine);
    I.AccountedOnce(kind, I.OldItems(prior, kind), Items(engine, kind), w, I.EngineReason(reason, prior), Deltas(e, kind));
    KeysAreTold(v, read, earlier, before, engine.key, kind);
    KeysAreTold(v, read, Some(later), Some(after), engine.key, kind);
    FoundItself(after.engines, i);
  }

  lemma {:induction false} FoundItself(engines: seq<Engine>, i: nat)
    requires DistinctEngines(engines) && i < |engines|
    ensures I.FindEngine(engines, engines[i].key) == Some(engines[i])
  {
    var n := |engines| - 1;
    if i < n {
      assert engines[i].key != engines[n].key;
      FoundItself(engines[..n], i);
    }
  }

  lemma EnginesAreTold(v: Vocabulary, read: string -> Option<real>, earlier: Option<Scrape>, later: Scrape,
                       before: Option<Snapshot>, after: Snapshot, r: I.Report)
    requires Consistent(v) && Made(v, read, earlier, before) && Made(v, read, Some(later), Some(after))
    requires |r.engines| == |after.engines| && forall i | 0 <= i < |r.engines| :: r.engines[i].key == after.engines[i].key
    requires r.missing == EngineKeys(I.OldEngines(before)) - EngineKeys(after.engines)
    ensures (set e | e in r.engines :: e.key) == ToldEngines(v, read, Some(later))
    ensures r.missing == ToldEngines(v, read, earlier) - ToldEngines(v, read, Some(later))
  {
    var any := EngineKey("", "");
    KeysAreTold(v, read, earlier, before, any, Counter);
    KeysAreTold(v, read, Some(later), Some(after), any, Counter);
    SameEngines(after.engines, r.engines);
  }

  lemma ReportCovers(v: Vocabulary, read: string -> Option<real>, earlier: Option<Scrape>, later: Scrape,
                     before: Option<Snapshot>, after: Snapshot, maximum: real, r: I.Report)
    requires Consistent(v) && Made(v, read, earlier, before) && Made(v, read, Some(later), Some(after))
    requires I.AllMeasured(I.OldEngines(before)) && I.AllMeasured(after.engines) && I.IsReport(before, after, maximum, r)
    ensures Covered(v, read, earlier, later, r)
  {
    var w, reason := I.WindowOf(before, after, maximum), I.Incomparable(before, after, maximum);
    forall e, kind | e in r.engines && kind != Gauge
      ensures I.DistinctDeltas(Deltas(e, kind))
      ensures I.DeltaKeys(Deltas(e, kind)) == Told(v, read, earlier, e.key, kind) + Told(v, read, Some(later), e.key, kind)
    {
      var i :| 0 <= i < |r.engines| && r.engines[i] == e;
      EngineIsCovered(v, read, earlier, later, before, after, w, reason, i, e, kind);
    }
    EnginesAreTold(v, read, earlier, later, before, after, r);
  }

  lemma SameEngines(engines: seq<Engine>, reports: seq<I.EngineReport>)
    requires |reports| == |engines| && forall i | 0 <= i < |engines| :: reports[i].key == engines[i].key
    ensures (set e | e in reports :: e.key) == EngineKeys(engines)
  {
    forall e | e in reports ensures e.key in EngineKeys(engines) {
      var i :| 0 <= i < |reports| && reports[i] == e;
      assert engines[i] in engines;
    }
    forall e | e in engines ensures exists r | r in reports :: r.key == e.key {
      var i :| 0 <= i < |engines| && engines[i] == e;
      assert reports[i] in reports;
    }
  }

  /** Whatever two scrapes are parsed, with the vocabulary of any legal families: the comparison
      never refuses what the parser made, and accounts for all that either payload tells of. */
  method CompareScrapes(definitions: Definitions, read: string -> Option<real>, earlier: Option<Scrape>, later: Scrape,
                        maximum: real)
    returns (v: Vocabulary, r: Option<I.Report>)
    requires LegalFamilies(definitions)
    ensures v.definitions == definitions && Consistent(v)
    ensures r.Some? <==>
            && LegalNumber(maximum) && maximum != 0.0
            && (earlier.Some? ==> Parses(v, read, earlier.value)) && Parses(v, read, later)
    ensures r.Some? ==> Covered(v, read, earlier, later, r.value)
  {
    v := BuildVocabulary(definitions);
    var before: Option<Snapshot> := None;
    if earlier.Some? {
      before := Make(v, read, earlier.value);
      if before.None? {
        return v, None;
      }
    }
    var after := Make(v, read, later);
    if after.None? {
      return v, None;
    }
    var report := I.Interval(v, before, after.value, maximum);
    if report.Err? {
      return v, None;
    }
    ReportCovers(v, read, earlier, later, before, after.value, maximum, report.value);
    r := Some(report.value);
  }
}
