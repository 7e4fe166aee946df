/**
 Comparing two snapshots (`_index` and `interval` in scripts/lib/inference_metrics.py): every
 series of either snapshot is accounted for once, and the result is valid only when nothing
 that the comparison needs is missing.
 */
module MetricInterval {
  import opened Prelude
  import opened Numbers
  import opened MetricSnapshot
  import opened SeriesDelta

  datatype WindowState = Complete | Partial | NoBaseline | Unavailable

  datatype EngineReport = EngineReport(
    key: EngineKey, gauges: seq<Series>, notReported: set<string>, counters: seq<Delta>, distributions: seq<Delta>)

  datatype Report = Report(
    identity: Identity, fromAt: Option<real>, toAt: real, elapsed: Option<real>,
    state: WindowState, reason: Option<Reason>, engines: seq<EngineReport>, missing: set<EngineKey>)

  datatype Refusal = CurrentInvalid | GapLimitInvalid | PreviousInvalid

  // ----- Series by key -----

  function Keys(items: seq<Series>): set<Key> {
    set s | s in items :: s.key
  }

  function Index(items: seq<Series>): (m: map<Key, Series>)
    ensures m.Keys == Keys(items)
    ensures forall k | k in m :: m[k] in items && m[k].key == k
  {
    if items == [] then map[]
    else
      var last := items[|items| - 1];
      assert items == items[..|items| - 1] + [last];
      Index(items[..|items| - 1])[last.key := last]
  }

  function Lookup(m: map<Key, Series>, k: Key): Option<Series> {
    if k in m then Some(m[k]) else None
  }

  // ----- One engine -----

  /** The record of a series that was there before and is not there now. */
  function Vanished(kind: Kind, s: Series, w: Window): Delta
    requires Comparable(kind, None, s)
  {
    var d := DeltaOf(kind, None, s, w, Some(SeriesNotReported));
    d.(verdict := Absent, from := None, to := None,
       change := if kind == Counter then Growth(None, None) else Spread(None, None, None, None, None))
  }

  predicate AllMeasure(kind: Kind, items: seq<Series>) {
    forall s | s in items :: Measures(kind, s)
  }

  function DeltaKeys(deltas: seq<Delta>): set<Key> {
    set d | d in deltas :: d.key
  }

  predicate DistinctDeltas(deltas: seq<Delta>) {
    forall i, j | 0 <= i < j < |deltas| :: deltas[i].key != deltas[j].key
  }

  /** One record for each series that vanished, in any order. */
  predicate RecordsVanished(kind: Kind, index: map<Key, Series>, gone: set<Key>, w: Window, out: seq<Delta>)
    requires gone <= index.Keys && forall k | k in index :: Measures(kind, index[k])
  {
    && DeltaKeys(out) == gone && DistinctDeltas(out)
    && forall d | d in out :: d.key in gone && d == Vanished(kind, index[d.key], w)
  }

  /** One change for each new series, in order, and then the records of those that vanished. */
  predicate Accounted(kind: Kind, past: seq<Series>, news: seq<Series>, w: Window, reason: Option<Reason>, out: seq<Delta>)
    requires AllMeasure(kind, past) && AllMeasure(kind, news) && (reason.None? ==> w.elapsed.Some?)
  {
    && |news| <= |out|
    && (forall i | 0 <= i < |news| :: out[i] == DeltaOf(kind, Lookup(Index(past), news[i].key), news[i], w, reason))
    && RecordsVanished(kind, Index(past), Keys(past) - Keys(news), w, out[|news|..])
  }

  method DescribeVanished(kind: Kind, s: Series, w: Window) returns (d: Delta)
    requires Measures(kind, s)
    ensures d == Vanished(kind, s, w)
  {
    d := Difference(kind, None, s, w, Some(SeriesNotReported));
    d := d.(verdict := Absent, from := None, to := None);
    if kind == Distribution {
      d := d.(change := d.change.(bounds := None));
    }
  }

  lemma OneMoreVanished(kind: Kind, index: map<Key, Series>, gone: set<Key>, key: Key, w: Window, out: seq<Delta>)
    requires gone <= index.Keys && forall k | k in index :: Measures(kind, index[k]) && index[k].key == k
    requires key in index && key !in gone && RecordsVanished(kind, index, gone, w, out)
    ensures RecordsVanished(kind, index, gone + {key}, w, out + [Vanished(kind, index[key], w)])
  {
    var d := Vanished(kind, index[key], w);
    assert d in out + [d];
    assert forall e :: e in out + [d] <==> e in out || e == d;
    assert forall i | 0 <= i < |out| :: out[i] in out;
  }

  method RecordVanished(kind: Kind, index: map<Key, Series>, gone: set<Key>, w: Window) returns (out: seq<Delta>)
    requires gone <= index.Keys && forall k | k in index :: Measures(kind, index[k]) && index[k].key == k
    ensures RecordsVanished(kind, index, gone, w, out)
  {
    out := [];
    var left := gone;
    while left != {}
      invariant left <= gone && RecordsVanished(kind, index, gone - left, w, out)
      decreases |left|
    {
      var key :| key in left;
      var d := DescribeVanished(kind, index[key], w);
      OneMoreVanished(kind, index, gone - left, key, w, out);
      assert gone - (left - {key}) == gone - left + {key};
      out := out + [d];
      left := left - {key};
    }
    assert gone - left == gone;
  }

  method CompareSeries(kind: Kind, past: seq<Series>, news: seq<Series>, w: Window, reason: Option<Reason>)
    returns (out: seq<Delta>)
    requires AllMeasure(kind, past) && AllMeasure(kind, news) && (reason.None? ==> w.elapsed.Some?)
    ensures Accounted(kind, past, news, w, reason, out)
  {
    var index := Index(past);
    var changes := [];
    for i := 0 to |news|
      invariant |changes| == i
      invariant forall k | 0 <= k < i :: changes[k] == DeltaOf(kind, Lookup(index, news[k].key), news[k], w, reason)
    {
      var d := Difference(kind, Lookup(index, news[i].key), news[i], w, reason);
      changes := changes + [d];
    }
    var gone := RecordVanished(kind, index, index.Keys - Index(news).Keys, w);
    out := changes + gone;
    assert out[|news|..] == gone;
  }

  /** Each series of either snapshot is reported once, and nothing else is. */
  lemma AccountedOnce(kind: Kind, past: seq<Series>, news: seq<Series>, w: Window, reason: Option<Reason>, out: seq<Delta>)
    requires AllMeasure(kind, past) && AllMeasure(kind, news) && (reason.None? ==> w.elapsed.Some?)
    requires DistinctKeys(news) && Accounted(kind, past, news, w, reason, out)
    ensures DistinctDeltas(out)
    ensures DeltaKeys(out) == Keys(past) + Keys(news)
  {
    var n := |news|;
    var gone := out[n..];
    assert out == out[..n] + gone;
    forall i | 0 <= i < n ensures out[i].key == news[i].key {
    }
    forall i | n <= i < |out| ensures out[i].key in Keys(past) - Keys(news) {
      assert out[i] in gone;
    }
    forall i, j | 0 <= i < j < |out| ensures out[i].key != out[j].key {
      if n <= i {
        assert gone[i - n].key != gone[j - n].key;
      } else if n <= j {
        assert out[i].key in Keys(news);
      }
    }
    NothingForgotten(out, n, news, gone);
  }

  lemma NothingForgotten(out: seq<Delta>, n: nat, news: seq<Series>, gone: seq<Delta>)
    requires n == |news| <= |out| && gone == out[n..] && forall i | 0 <= i < n :: out[i].key == news[i].key
    ensures DeltaKeys(out) == Keys(news) + DeltaKeys(gone)
  {
    forall k | k in Keys(news) ensures k in DeltaKeys(out) {
      var s :| s in news && s.key == k;
      var i :| 0 <= i < n && news[i] == s;
      assert out[i] in out;
    }
    forall k | k in DeltaKeys(gone) ensures k in DeltaKeys(out) {
      var d :| d in gone && d.key == k;
      assert d in out;
    }
    forall k | k in DeltaKeys(out) ensures k in Keys(news) + DeltaKeys(gone) {
      var i :| 0 <= i < |out| && out[i].key == k;
      if i < n {
        assert news[i] in news;
      } else {
        assert out[i] in gone;
      }
    }
  }

  // ----- Whole snapshots -----

  function FindEngine(engines: seq<Engine>, key: EngineKey): (e: Option<Engine>)
    ensures e.None? <==> key !in EngineKeys(engines)
    ensures e.Some? ==> e.value in engines && e.value.key == key
  {
    if engines == [] then None
    else
      var last := engines[|engines| - 1];
      assert engines == engines[..|engines| - 1] + [last];
      if last.key == key then Some(last) else FindEngine(engines[..|engines| - 1], key)
  }

  function OldEngines(previous: Option<Snapshot>): seq<Engine> {
    if previous.Some? then previous.value.engines else []
  }

  function OldItems(prior: Option<Engine>, kind: Kind): seq<Series> {
    if prior.Some? then Items(prior.value, kind) else []
  }

  /** The first reason for which the two snapshots as a whole cannot be compared. */
  function Incomparable(previous: Option<Snapshot>, current: Snapshot, maximum: real): Option<Reason> {
    if current.source != Observed then Some(Source(current.source))
    else if !Known(current.identity) then Some(IdentityNotReported)
    else if previous.None? then Some(FirstSample)
    else if previous.value.source != Observed then Some(PreviousNotObserved)
    else if !Known(previous.value.identity) then Some(IdentityNotReported)
    else if previous.value.identity != current.identity then Some(IdentityChanged)
    else
      var elapsed := current.observedAt - previous.value.observedAt;
      if elapsed == 0.0 then Some(DuplicateTimestamp)
      else if elapsed < 0.0 then Some(ClockMovedBackwards)
      else if elapsed > maximum then Some(SampleGap)
      else None
  }

  function WindowOf(previous: Option<Snapshot>, current: Snapshot, maximum: real): Window {
    if previous.None? then Window(None, maximum, None, Some(current.observedAt))
    else
      Window(Some(current.observedAt - previous.value.observedAt), maximum,
             Some(previous.value.observedAt), Some(current.observedAt))
  }

  function EngineReason(reason: Option<Reason>, prior: Option<Engine>): Option<Reason> {
    if reason.None? && prior.None? then Some(NewModelOrEngine) else reason
  }

  predicate Measured(e: Engine) {
    AllMeasure(Counter, e.counters) && AllMeasure(Distribution, e.distributions)
  }

  predicate AllMeasured(engines: seq<Engine>) {
    forall e | e in engines :: Measured(e)
  }

  lemma ValidIsMeasured(v: Vocabulary, s: Snapshot)
    requires ValidSnapshot(v, s)
    ensures AllMeasured(s.engines)
  {
    forall e | e in s.engines ensures Measured(e) {
      ValidMeasures(v, e, Counter);
      ValidMeasures(v, e, Distribution);
    }
  }

  lemma ValidMeasures(v: Vocabulary, e: Engine, kind: Kind)
    requires ValidEngine(v, e) && kind != Gauge
    ensures AllMeasure(kind, Items(e, kind))
  {
    forall s | s in Items(e, kind) ensures Measures(kind, s) {
      assert ValidSeries(v, kind, s);
    }
  }

  predicate IsEngineReport(prior: Option<Engine>, e: Engine, w: Window, reason: Option<Reason>, out: EngineReport)
    requires Measured(e) && (prior.Some? ==> Measured(prior.value)) && (reason.None? ==> w.elapsed.Some?)
  {
    && out.key == e.key && out.gauges == e.gauges && out.notReported == e.notReported
    && Accounted(Counter, OldItems(prior, Counter), e.counters, w, EngineReason(reason, prior), out.counters)
    && Accounted(Distribution, OldItems(prior, Distribution), e.distributions, w, EngineReason(reason, prior), out.distributions)
  }

  function Changes(engines: seq<EngineReport>): seq<Delta> {
    if engines == [] then []
    else
      var last := engines[|engines| - 1];
      Changes(engines[..|engines| - 1]) + last.counters + last.distributions
  }

  lemma ChangesGrow(engines: seq<EngineReport>, e: EngineReport)
    ensures Changes(engines + [e]) == Changes(engines) + e.counters + e.distributions
  {
    assert (engines + [e])[..|engines|] == engines;
  }

  predicate AllValid(deltas: seq<Delta>) {
    forall d | d in deltas :: d.verdict == Valid
  }

  function Judge(current: Snapshot, reason: Option<Reason>, deltas: seq<Delta>, missing: set<EngineKey>):
    (WindowState, Option<Reason>)
  {
    if current.source != Observed then (Unavailable, reason)
    else if reason.Some? then (NoBaseline, reason)
    else if deltas != [] && missing == {} && AllValid(deltas) then (Complete, None)
    else
      (if exists d | d in deltas :: d.verdict == Valid then Partial else NoBaseline,
       Some(if missing != {} then EngineNotReported else if deltas != [] then SeriesBaseline else NoIntervalSeries))
  }

  predicate IsReport(previous: Option<Snapshot>, current: Snapshot, maximum: real, r: Report)
    requires AllMeasured(OldEngines(previous)) && AllMeasured(current.engines)
  {
    var w, reason := WindowOf(previous, current, maximum), Incomparable(previous, current, maximum);
    && r.identity == current.identity && r.fromAt == w.from && r.toAt == current.observedAt
    && r.elapsed == (if w.elapsed.Some? && w.elapsed.value > 0.0 then w.elapsed else None)
    && |r.engines| == |current.engines|
    && (forall i | 0 <= i < |r.engines| ::
          IsEngineReport(FindEngine(OldEngines(previous), current.engines[i].key), current.engines[i], w, reason, r.engines[i]))
    && r.missing == EngineKeys(OldEngines(previous)) - EngineKeys(current.engines)
    && (r.state, r.reason) == Judge(current, reason, Changes(r.engines), r.missing)
  }

  method CompareEngine(prior: Option<Engine>, e: Engine, w: Window, reason: Option<Reason>) returns (out: EngineReport)
    requires Measured(e) && (prior.Some? ==> Measured(prior.value)) && (reason.None? ==> w.elapsed.Some?)
    ensures IsEngineReport(prior, e, w, reason, out)
  {
    var counters := CompareSeries(Counter, OldItems(prior, Counter), e.counters, w, EngineReason(reason, prior));
    var distributions := CompareSeries(Distribution, OldItems(prior, Distribution), e.distributions, w, EngineReason(reason, prior));
    out := EngineReport(e.key, e.gauges, e.notReported, counters, distributions);
  }

  method CompareEngines(olds: seq<Engine>, news: seq<Engine>, w: Window, reason: Option<Reason>)
    returns (out: seq<EngineReport>, deltas: seq<Delta>)
    requires AllMeasured(olds) && AllMeasured(news) && (reason.None? ==> w.elapsed.Some?)
    ensures |out| == |news| && deltas == Changes(out)
    ensures forall i | 0 <= i < |out| :: IsEngineReport(FindEngine(olds, news[i].key), news[i], w, reason, out[i])
  {
    out, deltas := [], [];
    for i := 0 to |news|
      invariant |out| == i && deltas == Changes(out)
      invariant forall k | 0 <= k < i :: IsEngineReport(FindEngine(olds, news[k].key), news[k], w, reason, out[k])
    {
      var engine := CompareEngine(FindEngine(olds, news[i].key), news[i], w, reason);
      ChangesGrow(out, engine);
      out := out + [engine];
      deltas := deltas + engine.counters + engine.distributions;
    }
  }

  method Conclude(current: Snapshot, reason: Option<Reason>, deltas: seq<Delta>, missing: set<EngineKey>)
    returns (state: WindowState, why: Option<Reason>)
    ensures (state, why) == Judge(current, reason, deltas, missing)
  {
    state, why := if reason.Some? then NoBaseline else Complete, reason;
    if current.source != Observed {
      state := Unavailable;
    } else if reason.None? {
      if deltas == [] || missing != {} || (exists d | d in deltas :: d.verdict != Valid) {
        state := if exists d | d in deltas :: d.verdict == Valid then Partial else NoBaseline;
        if missing != {} {
          why := Some(EngineNotReported);
        } else {
          why := if deltas != [] then Some(SeriesBaseline) else Some(NoIntervalSeries);
        }
      }
    }
  }

  /** Refuses exactly what validation refuses; otherwise accounts for both snapshots. */
  method Interval(v: Vocabulary, previous: Option<Snapshot>, current: Snapshot, maximum: real)
    returns (r: Result<Report, Refusal>)
    ensures r.Ok? <==>
            && ValidSnapshot(v, current) && LegalNumber(maximum) && maximum != 0.0
            && (previous.Some? ==> ValidSnapshot(v, previous.value))
    ensures r.Ok? ==>
              && AllMeasured(OldEngines(previous)) && AllMeasured(current.engines)
              && IsReport(previous, current, maximum, r.value)
    ensures r == Err(CurrentInvalid) <==> !ValidSnapshot(v, current)
  {
    if !ValidSnapshot(v, current) {
      return Err(CurrentInvalid);
    }
    if !LegalNumber(maximum) || maximum == 0.0 {
      return Err(GapLimitInvalid);
    }
    if previous.Some? && !ValidSnapshot(v, previous.value) {
      return Err(PreviousInvalid);
    }
    ValidAreMeasured(v, previous, current);
    var w, reason := WindowOf(previous, current, maximum), Incomparable(previous, current, maximum);
    var engines, deltas := CompareEngines(OldEngines(previous), current.engines, w, reason);
    var missing := EngineKeys(OldEngines(previous)) - EngineKeys(current.engines);
    var state, why := Conclude(current, reason, deltas, missing);
    var elapsed := if w.elapsed.Some? && w.elapsed.value > 0.0 then w.elapsed else None;
    r := Ok(Report(current.identity, w.from, current.observedAt, elapsed, state, why, engines, missing));
  }

  lemma ValidAreMeasured(v: Vocabulary, previous: Option<Snapshot>, current: Snapshot)
    requires ValidSnapshot(v, current) && (previous.Some? ==> ValidSnapshot(v, previous.value))
    ensures AllMeasured(OldEngines(previous)) && AllMeasured(current.engines)
  {
    ValidIsMeasured(v, current);
    if previous.Some? {
      ValidIsMeasured(v, previous.value);
    }
  }

  // ----- What a complete result guarantees -----

  /** Whether every change of one kind is valid, in terms of the two snapshots alone. */
  predicate Continuous(kind: Kind, past: seq<Series>, news: seq<Series>, w: Window)
    requires AllMeasure(kind, past) && AllMeasure(kind, news) && w.elapsed.Some?
  {
    && Keys(past) == Keys(news)
    && forall s | s in news :: Obstacle(kind, Some(Index(past)[s.key]), s, w, None).None?
  }

  predicate ContinuousEngine(prior: Option<Engine>, e: Engine, w: Window)
    requires Measured(e) && (prior.Some? ==> Measured(prior.value)) && w.elapsed.Some?
  {
    if prior.None? then e.counters == [] && e.distributions == []
    else
      && Continuous(Counter, prior.value.counters, e.counters, w)
      && Continuous(Distribution, prior.value.distributions, e.distributions, w)
  }

  lemma NewOnesValid(kind: Kind, past: seq<Series>, news: seq<Series>, w: Window, out: seq<Delta>)
    requires AllMeasure(kind, past) && AllMeasure(kind, news) && w.elapsed.Some?
    requires Accounted(kind, past, news, w, None, out)
    ensures AllValid(out[..|news|]) <==>
            forall s | s in news :: s.key in Keys(past) && Obstacle(kind, Some(Index(past)[s.key]), s, w, None).None?
  {
    var head := out[..|news|];
    if AllValid(head) {
      forall s | s in news ensures s.key in Keys(past) && Obstacle(kind, Some(Index(past)[s.key]), s, w, None).None? {
        var i :| 0 <= i < |news| && news[i] == s;
        assert head[i] in head;
      }
    }
    forall d | d in head ensures
      exists s | s in news :: d == DeltaOf(kind, Lookup(Index(past), s.key), s, w, None)
    {
      var i :| 0 <= i < |head| && head[i] == d;
      assert news[i] in news;
    }
  }

  lemma VanishedOnesInvalid(kind: Kind, past: seq<Series>, news: seq<Series>, w: Window, out: seq<Delta>)
    requires AllMeasure(kind, past) && AllMeasure(kind, news) && w.elapsed.Some?
    requires Accounted(kind, past, news, w, None, out)
    ensures AllValid(out[|news|..]) <==> Keys(past) <= Keys(news)
    ensures Keys(past) <= Keys(news) ==> out[|news|..] == []
  {
    var gone := out[|news|..];
    if Keys(past) <= Keys(news) {
      assert Keys(past) - Keys(news) == {};
      assert gone != [] ==> gone[0].key in DeltaKeys(gone);
    } else {
      var k :| k in Keys(past) && k !in Keys(news);
      assert k in DeltaKeys(gone);
      var d :| d in gone && d.key == k;
      assert d.verdict == Absent;
    }
  }

  lemma AllValidWhen(kind: Kind, past: seq<Series>, news: seq<Series>, w: Window, out: seq<Delta>)
    requires AllMeasure(kind, past) && AllMeasure(kind, news) && w.elapsed.Some?
    requires Accounted(kind, past, news, w, None, out)
    ensures AllValid(out) <==> Continuous(kind, past, news, w)
    ensures Continuous(kind, past, news, w) ==> (out == [] <==> news == [])
  {
    NewOnesValid(kind, past, news, w, out);
    VanishedOnesInvalid(kind, past, news, w, out);
    var head, gone := out[..|news|], out[|news|..];
    assert out == head + gone;
    AllValidOfTwo(head, gone);
    ContinuousMeans(kind, past, news, w);
  }

  lemma ContinuousMeans(kind: Kind, past: seq<Series>, news: seq<Series>, w: Window)
    requires AllMeasure(kind, past) && AllMeasure(kind, news) && w.elapsed.Some?
    ensures Continuous(kind, past, news, w) <==>
            && Keys(past) <= Keys(news)
            && forall s | s in news :: s.key in Keys(past) && Obstacle(kind, Some(Index(past)[s.key]), s, w, None).None?
  {
    SameKeys(past, news);
    if Keys(past) == Keys(news) {
      assert forall s | s in news :: s.key in Keys(news);
    }
  }

  lemma SameKeys(past: seq<Series>, news: seq<Series>)
    ensures Keys(past) == Keys(news) <==> Keys(past) <= Keys(news) && forall s | s in news :: s.key in Keys(past)
  {
    assert forall s | s in news :: s.key in Keys(news);
  }

  lemma AllValidOfTwo(a: seq<Delta>, b: seq<Delta>)
    ensures AllValid(a + b) <==> AllValid(a) && AllValid(b)
  {
    assert forall d :: d in a + b <==> d in a || d in b;
  }

  lemma EngineValidWhen(prior: Option<Engine>, e: Engine, w: Window, out: EngineReport)
    requires Measured(e) && (prior.Some? ==> Measured(prior.value)) && w.elapsed.Some?
    requires IsEngineReport(prior, e, w, None, out)
    ensures AllValid(out.counters + out.distributions) <==> ContinuousEngine(prior, e, w)
    ensures ContinuousEngine(prior, e, w) ==> (out.counters + out.distributions == [] <==> !HasSeries(e))
  {
    AllValidOfTwo(out.counters, out.distributions);
    if prior.None? {
      NewEngineBaseline(Counter, e.counters, w, out.counters);
      NewEngineBaseline(Distribution, e.distributions, w, out.distributions);
    } else {
      AllValidWhen(Counter, prior.value.counters, e.counters, w, out.counters);
      AllValidWhen(Distribution, prior.value.distributions, e.distributions, w, out.distributions);
    }
  }

  lemma NewEngineBaseline(kind: Kind, news: seq<Series>, w: Window, out: seq<Delta>)
    requires AllMeasure(kind, news) && w.elapsed.Some?
    requires Accounted(kind, [], news, w, Some(NewModelOrEngine), out)
    ensures AllValid(out) <==> news == []
    ensures out == [] <==> news == []
  {
    if news != [] {
      assert out[0] in out && out[0].verdict == Baseline;
    } else {
      assert out == out[|news|..];
      SomeKey(out);
    }
  }

  lemma SomeKey(out: seq<Delta>)
    ensures out != [] ==> DeltaKeys(out) != {}
  {
    if out != [] {
      assert out[0].key in DeltaKeys(out);
    }
  }

  predicate HasSeries(e: Engine) {
    e.counters != [] || e.distributions != []
  }

  predicate AreReports(olds: seq<Engine>, news: seq<Engine>, w: Window, out: seq<EngineReport>)
    requires AllMeasured(olds) && AllMeasured(news) && w.elapsed.Some?
  {
    && |out| == |news|
    && forall i | 0 <= i < |out| :: IsEngineReport(FindEngine(olds, news[i].key), news[i], w, None, out[i])
  }

  function ChangesOf(e: EngineReport): seq<Delta> {
    e.counters + e.distributions
  }

  lemma {:induction false} ChangesAreAll(out: seq<EngineReport>)
    ensures AllValid(Changes(out)) <==> forall i | 0 <= i < |out| :: AllValid(ChangesOf(out[i]))
    ensures Changes(out) == [] <==> forall i | 0 <= i < |out| :: ChangesOf(out[i]) == []
  {
    var n := |out|;
    if n > 0 {
      ChangesAreAll(out[..n - 1]);
      assert Changes(out) == Changes(out[..n - 1]) + ChangesOf(out[n - 1]);
      AllValidOfTwo(Changes(out[..n - 1]), ChangesOf(out[n - 1]));
    }
  }

  lemma ChangesValidWhen(olds: seq<Engine>, news: seq<Engine>, w: Window, out: seq<EngineReport>)
    requires AllMeasured(olds) && AllMeasured(news) && w.elapsed.Some? && AreReports(olds, news, w, out)
    ensures AllValid(Changes(out)) <==>
            forall i | 0 <= i < |news| :: ContinuousEngine(FindEngine(olds, news[i].key), news[i], w)
    ensures AllValid(Changes(out)) ==> (Changes(out) == [] <==> forall i | 0 <= i < |news| :: !HasSeries(news[i]))
  {
    ChangesAreAll(out);
    forall i | 0 <= i < |news|
      ensures AllValid(ChangesOf(out[i])) <==> ContinuousEngine(FindEngine(olds, news[i].key), news[i], w)
      ensures AllValid(ChangesOf(out[i])) ==> (ChangesOf(out[i]) == [] <==> !HasSeries(news[i]))
    {
      EngineValidWhen(FindEngine(olds, news[i].key), news[i], w, out[i]);
    }
  }

  /** Both snapshots were observed under the same fully known identity within the longest legal
      gap, no engine disappeared, some series exists, an engine that was not there before brings
      none, and in every other engine the same series are there on both sides, each with nothing
      in the way of a valid change. */
  predicate Seamless(previous: Option<Snapshot>, current: Snapshot, maximum: real)
    requires AllMeasured(OldEngines(previous)) && AllMeasured(current.engines)
  {
    && previous.Some? && previous.value.source == Observed && current.source == Observed
    && Known(current.identity) && previous.value.identity == current.identity
    && 0.0 < current.observedAt - previous.value.observedAt <= maximum
    && EngineKeys(previous.value.engines) <= EngineKeys(current.engines)
    && (exists e | e in current.engines :: HasSeries(e))
    && AllContinuous(previous.value.engines, current.engines, WindowOf(previous, current, maximum))
  }

  predicate AllContinuous(olds: seq<Engine>, news: seq<Engine>, w: Window)
    requires AllMeasured(olds) && AllMeasured(news) && w.elapsed.Some?
  {
    forall e | e in news :: ContinuousEngine(FindEngine(olds, e.key), e, w)
  }

  lemma CompleteExactly(previous: Option<Snapshot>, current: Snapshot, maximum: real, r: Report)
    requires AllMeasured(OldEngines(previous)) && AllMeasured(current.engines) && IsReport(previous, current, maximum, r)
    ensures r.state == Complete <==> Seamless(previous, current, maximum)
  {
    if Incomparable(previous, current, maximum).None? {
      var olds, w := previous.value.engines, WindowOf(previous, current, maximum);
      CompleteWhen(olds, current, w, r);
    }
  }

  lemma CompleteWhen(olds: seq<Engine>, current: Snapshot, w: Window, r: Report)
    requires AllMeasured(olds) && AllMeasured(current.engines) && w.elapsed.Some? && current.source == Observed
    requires AreReports(olds, current.engines, w, r.engines) && r.missing == EngineKeys(olds) - EngineKeys(current.engines)
    requires (r.state, r.reason) == Judge(current, None, Changes(r.engines), r.missing)
    ensures r.state == Complete <==>
            && EngineKeys(olds) <= EngineKeys(current.engines)
            && (exists e | e in current.engines :: HasSeries(e))
            && AllContinuous(olds, current.engines, w)
  {
    ChangesValidWhen(olds, current.engines, w, r.engines);
    NoneMissing(EngineKeys(olds), EngineKeys(current.engines));
    EveryAndSome(olds, current.engines, w);
  }

  lemma NoneMissing(a: set<EngineKey>, b: set<EngineKey>)
    ensures a - b == {} <==> a <= b
  {
    assert forall k :: k in a - b <==> k in a && k !in b;
  }

  lemma EveryAndSome(olds: seq<Engine>, news: seq<Engine>, w: Window)
    requires AllMeasured(olds) && AllMeasured(news) && w.elapsed.Some?
    ensures (exists e | e in news :: HasSeries(e)) <==> !forall i | 0 <= i < |news| :: !HasSeries(news[i])
    ensures AllContinuous(olds, news, w) <==>
            forall i | 0 <= i < |news| :: ContinuousEngine(FindEngine(olds, news[i].key), news[i], w)
  {
    assert forall i | 0 <= i < |news| :: news[i] in news;
  }

  // ----- An engine that appears unnoticed -----

  function Joined(current: Snapshot, e: Engine): Snapshot {
    current.(engines := current.engines + [e])
  }

  /** An engine that appears with gauges only never changes whether the interval is complete. */
  lemma GaugesOnlyIsOverlooked(previous: Snapshot, current: Snapshot, e: Engine, maximum: real)
    requires !HasSeries(e) && e.key !in EngineKeys(previous.engines)
    requires AllMeasured(previous.engines) && AllMeasured(current.engines) && AllMeasured(Joined(current, e).engines)
    ensures Seamless(Some(previous), Joined(current, e), maximum) <==> Seamless(Some(previous), current, maximum)
  {
    var olds, news, w := previous.engines, current.engines, WindowOf(Some(previous), current, maximum);
    var keys, more := EngineKeys(olds), EngineKeys(news + [e]);
    JoinedKeys(news, e);
    assert keys <= more <==> keys <= EngineKeys(news);
    JoinedContinuous(olds, news, e, w);
    assert WindowOf(Some(previous), Joined(current, e), maximum) == w;
    assert Joined(current, e).engines == news + [e];
  }

  lemma JoinedKeys(news: seq<Engine>, e: Engine)
    ensures EngineKeys(news + [e]) == EngineKeys(news) + {e.key}
    ensures (exists x | x in news + [e] :: HasSeries(x)) <==> HasSeries(e) || exists x | x in news :: HasSeries(x)
  {
    assert forall x :: x in news + [e] <==> x in news || x == e;
  }

  lemma JoinedContinuous(olds: seq<Engine>, news: seq<Engine>, e: Engine, w: Window)
    requires AllMeasured(olds) && AllMeasured(news) && AllMeasured(news + [e]) && w.elapsed.Some?
    requires !HasSeries(e) && e.key !in EngineKeys(olds)
    ensures AllContinuous(olds, news + [e], w) <==> AllContinuous(olds, news, w)
  {
    assert forall x :: x in news + [e] <==> x in news || x == e;
    assert ContinuousEngine(FindEngine(olds, e.key), e, w);
  }

  const PROMPT := "vllm:prompt_tokens_total"
  const RUNNING := "vllm:num_requests_running"

  const SMALL_VOCABULARY := Vocabulary(
    map[PROMPT := Definition(Counter, OtherUnit("tokens"), {}), RUNNING := Definition(Gauge, Requests, {})],
    map[PROMPT := (PROMPT, Value), RUNNING := (RUNNING, Value)])

  function Prompts(count: real): Series {
    Series(Key(PROMPT, map[]), OtherUnit("tokens"), false, None, None, Number(count))
  }

  function OneEngine(count: real): Engine {
    Engine(EngineKey("m", "0"), [], [Prompts(count)], [], {})
  }

  const NEWCOMER :=
    Engine(EngineKey("m", "1"), [Series(Key(RUNNING, map[]), Requests, false, None, None, Number(1.0))], [], [], {})

  function Seen(at: real, engines: seq<Engine>): Snapshot {
    Snapshot(at, Observed, Identity("s", Some("b"), Some("p"), Some("c")), engines, {}, {})
  }

  lemma ShortIsText(c: char)
    requires 'a' <= c <= 'z' || c == '0' || c == '1'
    ensures IsText([c])
  {
    assert Bytes([]) == 0;
    assert Bytes([c]) == Bytes([c][..0]) + CharBytes(c);
  }

  lemma ExampleIsValid(count: real)
    requires count == 1.0 || count == 2.0
    ensures ValidSnapshot(SMALL_VOCABULARY, Seen(count, [OneEngine(count)]))
    ensures ValidSnapshot(SMALL_VOCABULARY, Seen(count, [OneEngine(count), NEWCOMER]))
  {
    ShortIsText('s');
    ShortIsText('b');
    ShortIsText('p');
    ShortIsText('c');
    EnginesAreValid(count);
    assert SeriesCount([OneEngine(count)]) == SeriesCount([OneEngine(count)][..0]) + 1;
    assert [OneEngine(count), NEWCOMER][..1] == [OneEngine(count)];
  }

  lemma EnginesAreValid(count: real)
    requires count == 1.0 || count == 2.0
    ensures ValidEngine(SMALL_VOCABULARY, OneEngine(count)) && ValidEngine(SMALL_VOCABULARY, NEWCOMER)
  {
    ShortIsText('m');
    ShortIsText('0');
    ShortIsText('1');
  }

  const EARLIER := Seen(1.0, [OneEngine(1.0)])
  const LATER := Seen(2.0, [OneEngine(2.0)])

  lemma OneSeriesGrows(w: Window)
    requires w.elapsed == Some(1.0) && w.maximum == 60.0
    ensures ContinuousEngine(Some(OneEngine(1.0)), OneEngine(2.0), w)
  {
    assert Index([Prompts(1.0)])[Prompts(1.0).key] == Prompts(1.0);
    assert Prompts(1.0) in [Prompts(1.0)] && Prompts(2.0) in [Prompts(2.0)];
  }

  lemma EarlierToLater()
    ensures AllMeasured(EARLIER.engines) && AllMeasured(LATER.engines) && Seamless(Some(EARLIER), LATER, 60.0)
  {
    OneSeriesGrows(WindowOf(Some(EARLIER), LATER, 60.0));
    assert FindEngine(EARLIER.engines, OneEngine(2.0).key) == Some(OneEngine(1.0));
    assert OneEngine(2.0) in LATER.engines && HasSeries(OneEngine(2.0));
    assert OneEngine(1.0) in EARLIER.engines;
  }

  /** Two valid snapshots a second apart: the second has one engine more, and the interval between
      them is complete. */
  method NewEngineUnnoticed() returns (r: Report)
    ensures var after := Joined(LATER, NEWCOMER);
            && ValidSnapshot(SMALL_VOCABULARY, EARLIER) && ValidSnapshot(SMALL_VOCABULARY, after)
            && NEWCOMER.key !in EngineKeys(EARLIER.engines) && NEWCOMER in after.engines
            && AllMeasured(EARLIER.engines) && AllMeasured(after.engines) && IsReport(Some(EARLIER), after, 60.0, r)
            && r.state == Complete
  {
    ExampleIsValid(1.0);
    ExampleIsValid(2.0);
    assert LATER.engines + [NEWCOMER] == [OneEngine(2.0), NEWCOMER];
    var result := Interval(SMALL_VOCABULARY, Some(EARLIER), Joined(LATER, NEWCOMER), 60.0);
    r := result.value;
    EarlierToLater();
    GaugesOnlyIsOverlooked(EARLIER, LATER, NEWCOMER, 60.0);
    CompleteExactly(Some(EARLIER), Joined(LATER, NEWCOMER), 60.0, r);
  }
}
