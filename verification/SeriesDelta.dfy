/**
 The change of one series between two snapshots (`_series_elapsed` and `_delta` in
 scripts/lib/inference_metrics.py): what a valid change says about the observations made in
 between, and how valid changes add up.
 */
module SeriesDelta {
  import opened Prelude
  import opened Numbers
  import opened Histogram
  import opened MetricSnapshot

  datatype Reason =
    | Source(state: SourceState) | IdentityNotReported | FirstSample | PreviousNotObserved | IdentityChanged
    | DuplicateTimestamp | ClockMovedBackwards | SampleGap | SampleTimestampChanged
    | NewModelOrEngine | NewSeries | SeriesNotReported | CreationEpochChanged
    | CounterDecreased | BucketSchemaChanged | DeltaInvalid
    | EngineNotReported | SeriesBaseline | NoIntervalSeries

  datatype Verdict = Valid | Baseline | Absent

  datatype Change =
    | Growth(delta: Option<real>, perSecond: Option<real>)
    | Spread(bounds: Option<seq<Bound>>, counts: Option<seq<int>>, count: Option<int>, sum: Option<real>, mean: Option<real>)

  datatype Delta = Delta(
    key: Key, unit: Unit, createdAt: Option<real>, verdict: Verdict, reason: Option<Reason>,
    elapsed: Option<real>, from: Option<real>, to: Option<real>, change: Change)

  /** The window both snapshots span: seconds between them, the longest legal gap, both ends. */
  datatype Window = Window(elapsed: Option<real>, maximum: real, from: Option<real>, to: Option<real>)

  function Elapsed(previous: Series, current: Series, elapsed: real, maximum: real): Result<real, Reason> {
    if previous.sampleAt.None? != current.sampleAt.None? then Err(SampleTimestampChanged)
    else
      var duration := if previous.sampleAt.None? then elapsed else current.sampleAt.value - previous.sampleAt.value;
      if duration == 0.0 then Err(DuplicateTimestamp)
      else if duration < 0.0 then Err(ClockMovedBackwards)
      else if duration > maximum then Err(SampleGap)
      else Ok(duration)
  }

  function Minus(later: seq<int>, earlier: seq<int>): (r: seq<int>)
    requires |later| == |earlier|
    ensures |r| == |later| && forall i | 0 <= i < |r| :: r[i] == later[i] - earlier[i]
  {
    seq(|later|, i requires 0 <= i < |later| => later[i] - earlier[i])
  }

  /** What validation has established about a series of a kind that can be compared. */
  predicate Measures(kind: Kind, s: Series) {
    match kind
    case Gauge => false
    case Counter => s.measure.Number?
    case Distribution => s.measure.Buckets? && |s.measure.bounds| == |s.measure.counts|
  }

  predicate Comparable(kind: Kind, previous: Option<Series>, current: Series) {
    Measures(kind, current) && (previous.Some? ==> Measures(kind, previous.value))
  }

  predicate HistogramGrew(earlier: Measure, later: Measure)
    requires earlier.Buckets? && later.Buckets? && |earlier.bounds| == |earlier.counts| && |later.bounds| == |later.counts|
    requires later.bounds == earlier.bounds
  {
    Accepted(later.bounds, Minus(later.counts, earlier.counts), later.count - earlier.count, later.sum - earlier.sum)
  }

  /** The first thing that keeps the change from being valid. */
  function Obstacle(kind: Kind, previous: Option<Series>, current: Series, w: Window, reason: Option<Reason>): Option<Reason>
    requires Comparable(kind, previous, current) && (reason.None? ==> w.elapsed.Some?)
  {
    if reason.Some? then reason
    else if previous.None? then Some(NewSeries)
    else if previous.value.createdAt != current.createdAt then Some(CreationEpochChanged)
    else
      var duration := Elapsed(previous.value, current, w.elapsed.value, w.maximum);
      if duration.Err? then Some(duration.reason)
      else if kind == Counter then
        if current.measure.value < previous.value.measure.value then Some(CounterDecreased) else None
      else if current.measure.bounds != previous.value.measure.bounds then Some(BucketSchemaChanged)
      else if !HistogramGrew(previous.value.measure, current.measure) then Some(DeltaInvalid)
      else None
  }

  function Unmeasured(kind: Kind, current: Series): Change
    requires Comparable(kind, None, current)
  {
    if kind == Counter then Growth(None, None) else Spread(Some(current.measure.bounds), None, None, None, None)
  }

  function Mean(sum: real, count: int): Option<real> {
    if count == 0 then None else Some(sum / count as real)
  }

  function Measured(kind: Kind, previous: Series, current: Series, seconds: real): Change
    requires Comparable(kind, Some(previous), current) && seconds > 0.0
    requires kind == Distribution ==> |current.measure.counts| == |previous.measure.counts|
  {
    if kind == Counter then
      var growth := current.measure.value - previous.measure.value;
      Growth(Some(growth), Some(growth / seconds))
    else
      var count, sum := current.measure.count - previous.measure.count, current.measure.sum - previous.measure.sum;
      Spread(Some(current.measure.bounds), Some(Minus(current.measure.counts, previous.measure.counts)),
             Some(count), Some(sum), Mean(sum, count))
  }

  function DeltaOf(kind: Kind, previous: Option<Series>, current: Series, w: Window, reason: Option<Reason>): Delta
    requires Comparable(kind, previous, current) && (reason.None? ==> w.elapsed.Some?)
  {
    var from := if previous.Some? && previous.value.sampleAt.Some? then previous.value.sampleAt else w.from;
    var to := if current.sampleAt.Some? then current.sampleAt else w.to;
    var obstacle := Obstacle(kind, previous, current, w, reason);
    if obstacle.Some? then
      Delta(current.key, current.unit, current.createdAt, Baseline, obstacle, None, from, to, Unmeasured(kind, current))
    else
      var seconds := Elapsed(previous.value, current, w.elapsed.value, w.maximum).value;
      Delta(current.key, current.unit, current.createdAt, Valid, None, Some(seconds), from, to,
            Measured(kind, previous.value, current, seconds))
  }

  /** The program's steps: a baseline record, filled in when nothing stands in the way. */
  method Difference(kind: Kind, previous: Option<Series>, current: Series, w: Window, reason: Option<Reason>)
    returns (d: Delta)
    requires Comparable(kind, previous, current) && (reason.None? ==> w.elapsed.Some?)
    ensures d == DeltaOf(kind, previous, current, w, reason)
  {
    d := Delta(current.key, current.unit, current.createdAt, Baseline, reason, None,
               if previous.Some? && previous.value.sampleAt.Some? then previous.value.sampleAt else w.from,
               if current.sampleAt.Some? then current.sampleAt else w.to,
               if kind == Counter then Growth(None, None) else Spread(Some(current.measure.bounds), None, None, None, None));
    var why := reason;
    if why.None? && previous.None? {
      why := Some(NewSeries);
    }
    if why.None? && previous.value.createdAt != current.createdAt {
      why := Some(CreationEpochChanged);
    }
    var seconds := 0.0;
    if why.None? {
      match Elapsed(previous.value, current, w.elapsed.value, w.maximum) {
        case Ok(duration) => seconds := duration;
        case Err(r) => why := Some(r);
      }
    }
    if why.None? && kind == Counter {
      var growth := current.measure.value - previous.value.measure.value;
      if growth < 0.0 {
        why := Some(CounterDecreased);
      } else {
        d := d.(change := Growth(Some(growth), Some(growth / seconds)));
      }
    } else if why.None? {
      if current.measure.bounds != previous.value.measure.bounds {
        why := Some(BucketSchemaChanged);
      } else {
        var counts := Subtract(current.measure.counts, previous.value.measure.counts);
        var count := current.measure.count - previous.value.measure.count;
        var sum := current.measure.sum - previous.value.measure.sum;
        var flaw := Check(current.measure.bounds, counts, Some(count), Some(sum));
        if flaw.Some? {
          why := Some(DeltaInvalid);
        } else {
          d := d.(change := Spread(Some(current.measure.bounds), Some(counts), Some(count), Some(sum),
                                   Mean(sum, count)));
        }
      }
    }
    d := d.(reason := why);
    if why.None? {
      d := d.(verdict := Valid, elapsed := Some(seconds));
    }
  }

  method Subtract(later: seq<int>, earlier: seq<int>) returns (r: seq<int>)
    requires |later| == |earlier|
    ensures r == Minus(later, earlier)
  {
    r := [];
    for i := 0 to |later|
      invariant |r| == i && forall k | 0 <= k < i :: r[k] == later[k] - earlier[k]
    {
      r := r + [later[i] - earlier[i]];
    }
  }

  // ----- What a valid histogram change says -----

  /** When the series hold the histograms of some observations, before and after more were made,
      the change is valid exactly when the sum of the new ones is a legal number, and then it is
      the histogram of the new ones alone, with their true mean. */
  lemma HistogramDeltaIsWhatHappened(past: seq<real>, news: seq<real>, previous: Series, current: Series, w: Window)
    requires Comparable(Distribution, Some(previous), current) && w.elapsed.Some?
    requires previous.createdAt == current.createdAt && previous.measure.bounds == current.measure.bounds
    requires Elapsed(previous, current, w.elapsed.value, w.maximum).Ok?
    requires Bounded(current.measure.bounds) && |current.measure.bounds| <= MAX_BUCKETS
    requires Holds(previous.measure, past) && Holds(current.measure, past + news) && LegalCount(current.measure.count)
    ensures var d := DeltaOf(Distribution, Some(previous), current, w, None);
            && (d.verdict == Valid <==> LegalNumber(Total(news)))
            && (d.verdict == Valid ==> Reports(d.change, news, current.measure.bounds))
  {
    var bounds := current.measure.bounds;
    NewsAlone(past, news, bounds);
    NewsAreAccepted(past, news, bounds);
    DistributionDelta(previous, current, w, CountsOf(news, bounds), |news|, Total(news));
    ReportsNews(news, bounds);
  }

  predicate Holds(m: Measure, xs: seq<real>) {
    m.Buckets? && IsHistogram(xs, m.bounds, m.counts, m.count, m.sum)
  }

  /** A change that is the histogram of these observations, with their mean if there are any. */
  predicate Reports(c: Change, xs: seq<real>, bounds: seq<Bound>) {
    && c.Spread? && c.bounds == Some(bounds) && c.counts.Some? && c.count.Some? && c.sum.Some?
    && IsHistogram(xs, bounds, c.counts.value, c.count.value, c.sum.value)
    && (c.mean.None? <==> xs == [])
    && (c.mean.Some? ==> c.mean.value * |xs| as real == Total(xs))
  }

  lemma ReportsNews(news: seq<real>, bounds: seq<Bound>)
    requires Observations(news)
    ensures Reports(Spread(Some(bounds), Some(CountsOf(news, bounds)), Some(|news|), Some(Total(news)), Mean(Total(news), |news|)),
                    news, bounds)
  {
    MeanTimesCount(Total(news), |news|);
  }

  lemma DistributionDelta(previous: Series, current: Series, w: Window, counts: seq<int>, count: int, sum: real)
    requires Comparable(Distribution, Some(previous), current) && w.elapsed.Some?
    requires previous.createdAt == current.createdAt && previous.measure.bounds == current.measure.bounds
    requires Elapsed(previous, current, w.elapsed.value, w.maximum).Ok?
    requires counts == Minus(current.measure.counts, previous.measure.counts)
    requires count == current.measure.count - previous.measure.count && sum == current.measure.sum - previous.measure.sum
    ensures var d := DeltaOf(Distribution, Some(previous), current, w, None);
            && (d.verdict == Valid <==> Accepted(current.measure.bounds, counts, count, sum))
            && (d.verdict == Valid ==>
                  d.change == Spread(Some(current.measure.bounds), Some(counts), Some(count), Some(sum), Mean(sum, count)))
  {
  }

  lemma NewsAreAccepted(past: seq<real>, news: seq<real>, bounds: seq<Bound>)
    requires Bounded(bounds) && |bounds| <= MAX_BUCKETS && Observations(past + news) && LegalCount(|past + news|)
    ensures Observations(news)
    ensures Accepted(bounds, CountsOf(news, bounds), |news|, Total(news)) <==> LegalNumber(Total(news))
  {
    assert forall i | 0 <= i < |news| :: news[i] == (past + news)[|past| + i];
    if LegalNumber(Total(news)) {
      RealHistogramsAreAccepted(news, bounds);
    }
  }

  lemma NewsAlone(past: seq<real>, news: seq<real>, bounds: seq<Bound>)
    ensures Minus(CountsOf(past + news, bounds), CountsOf(past, bounds)) == CountsOf(news, bounds)
    ensures Total(past + news) - Total(past) == Total(news)
  {
    TotalAppend(past, news);
    forall i | 0 <= i < |bounds|
      ensures CountsOf(past + news, bounds)[i] - CountsOf(past, bounds)[i] == CountsOf(news, bounds)[i]
    {
      CountAppend(past, news, bounds[i]);
    }
  }

  lemma MeanTimesCount(total: real, count: nat)
    ensures Mean(total, count).None? <==> count == 0
    ensures Mean(total, count).Some? ==> Mean(total, count).value * count as real == total
  {
  }

  // ----- Adding up valid changes -----

  /** One series as read at successive snapshots, and the changes between them. */
  datatype Reading = Reading(series: Series, observedAt: real)

  function Step(kind: Kind, first: Reading, second: Reading, maximum: real): Delta
    requires Comparable(kind, Some(first.series), second.series)
  {
    var w := Window(Some(second.observedAt - first.observedAt), maximum, Some(first.observedAt), Some(second.observedAt));
    DeltaOf(kind, Some(first.series), second.series, w, None)
  }

  predicate ValidChain(kind: Kind, readings: seq<Reading>, maximum: real, deltas: seq<Delta>) {
    && |readings| == |deltas| + 1
    && forall i | 0 <= i < |deltas| ::
         && Comparable(kind, Some(readings[i].series), readings[i + 1].series)
         && deltas[i] == Step(kind, readings[i], readings[i + 1], maximum)
         && deltas[i].verdict == Valid
  }

  /** When a reading was taken, as far as elapsed time is concerned. */
  function Moment(r: Reading): real {
    if r.series.sampleAt.Some? then r.series.sampleAt.value else r.observedAt
  }

  /** What one valid change says about the two readings it joins. */
  predicate Links(kind: Kind, a: Reading, b: Reading, d: Delta) {
    && d.elapsed == Some(Moment(b) - Moment(a)) && Moment(b) > Moment(a)
    && a.series.createdAt == b.series.createdAt
    && match kind
       case Gauge => false
       case Counter =>
         && a.series.measure.Number? && b.series.measure.Number?
         && d.change.Growth? && d.change.delta == Some(b.series.measure.value - a.series.measure.value)
         && d.change.delta.value >= 0.0
       case Distribution =>
         && a.series.measure.Buckets? && b.series.measure.Buckets? && d.change.Spread?
         && a.series.measure.bounds == b.series.measure.bounds
         && |a.series.measure.counts| == |b.series.measure.counts|
         && d.change.counts == Some(Minus(b.series.measure.counts, a.series.measure.counts))
         && d.change.count == Some(b.series.measure.count - a.series.measure.count)
         && d.change.sum == Some(b.series.measure.sum - a.series.measure.sum)
  }

  lemma StepLinks(kind: Kind, first: Reading, second: Reading, maximum: real)
    requires Comparable(kind, Some(first.series), second.series)
    requires Step(kind, first, second, maximum).verdict == Valid
    ensures Links(kind, first, second, Step(kind, first, second, maximum))
  {
  }

  /** The rate of a valid change carries its growth: rate times seconds gives it back. */
  lemma RateCarriesGrowth(first: Reading, second: Reading, maximum: real)
    requires Comparable(Counter, Some(first.series), second.series)
    requires Step(Counter, first, second, maximum).verdict == Valid
    ensures var d := Step(Counter, first, second, maximum);
            d.change.Growth? && d.change.perSecond.Some?
            && d.change.perSecond.value * d.elapsed.value == second.series.measure.value - first.series.measure.value
  {
    var d := Step(Counter, first, second, maximum);
    RateTimesSeconds(d.change.delta.value, d.elapsed.value);
  }

  lemma RateTimesSeconds(growth: real, seconds: real)
    requires seconds > 0.0
    ensures (growth / seconds) * seconds == growth
  {
  }

  /** What can be added up along a chain. */
  datatype Quantity = Seconds | Grown | Counted | Summed | InBoundary(k: nat)

  function Added(q: Quantity, d: Delta): real {
    match q
    case Seconds => if d.elapsed.Some? then d.elapsed.value else 0.0
    case Grown => if d.change.Growth? && d.change.delta.Some? then d.change.delta.value else 0.0
    case Counted => if d.change.Spread? && d.change.count.Some? then d.change.count.value as real else 0.0
    case Summed => if d.change.Spread? && d.change.sum.Some? then d.change.sum.value else 0.0
    case InBoundary(k) =>
      if d.change.Spread? && d.change.counts.Some? && k < |d.change.counts.value| then d.change.counts.value[k] as real
      else 0.0
  }

  function Shown(q: Quantity, r: Reading): real {
    match q
    case Seconds => Moment(r)
    case Grown => if r.series.measure.Number? then r.series.measure.value else 0.0
    case Counted => if r.series.measure.Buckets? then r.series.measure.count as real else 0.0
    case Summed => if r.series.measure.Buckets? then r.series.measure.sum else 0.0
    case InBoundary(k) =>
      if r.series.measure.Buckets? && k < |r.series.measure.counts| then r.series.measure.counts[k] as real else 0.0
  }

  function AddedUp(q: Quantity, deltas: seq<Delta>): real {
    if deltas == [] then 0.0 else AddedUp(q, deltas[..|deltas| - 1]) + Added(q, deltas[|deltas| - 1])
  }

  /** Whether this is something the changes of a kind report. */
  predicate Applies(q: Quantity, kind: Kind) {
    match q
    case Seconds => true
    case Grown => kind == Counter
    case _ => kind == Distribution
  }

  lemma {:induction false} Telescopes(q: Quantity, readings: seq<Reading>, deltas: seq<Delta>)
    requires |readings| == |deltas| + 1
    requires forall i | 0 <= i < |deltas| :: Added(q, deltas[i]) == Shown(q, readings[i + 1]) - Shown(q, readings[i])
    ensures AddedUp(q, deltas) == Shown(q, readings[|deltas|]) - Shown(q, readings[0])
  {
    var n := |deltas|;
    if n > 0 {
      Telescopes(q, readings[..n], deltas[..n - 1]);
    }
  }

  lemma LinkAdds(q: Quantity, kind: Kind, a: Reading, b: Reading, d: Delta)
    requires Applies(q, kind) && Links(kind, a, b, d)
    ensures Added(q, d) == Shown(q, b) - Shown(q, a)
  {
  }

  /** Over any chain of valid changes, the seconds, the growth of a counter, and the observations of
      a histogram in all, in sum and up to each boundary, add up to the last reading minus the first. */
  lemma ChainsTelescope(q: Quantity, kind: Kind, readings: seq<Reading>, maximum: real, deltas: seq<Delta>)
    requires ValidChain(kind, readings, maximum, deltas) && Applies(q, kind)
    ensures AddedUp(q, deltas) == Shown(q, readings[|deltas|]) - Shown(q, readings[0])
  {
    forall i | 0 <= i < |deltas| ensures Added(q, deltas[i]) == Shown(q, readings[i + 1]) - Shown(q, readings[i]) {
      StepLinks(kind, readings[i], readings[i + 1], maximum);
      LinkAdds(q, kind, readings[i], readings[i + 1], deltas[i]);
    }
    Telescopes(q, readings, deltas);
  }

  lemma SameSeries(kind: Kind, first: Reading, second: Reading, maximum: real)
    requires Comparable(kind, Some(first.series), second.series)
    requires Step(kind, first, second, maximum).verdict == Valid
    ensures second.series.createdAt == first.series.createdAt
    ensures kind == Distribution ==>
              first.series.measure.Buckets? && second.series.measure.Buckets?
              && second.series.measure.bounds == first.series.measure.bounds
  {
    StepLinks(kind, first, second, maximum);
  }

  /** Along a chain the creation epoch and the boundaries stay the same. */
  lemma {:induction false} ChainsKeepTheirSeries(kind: Kind, readings: seq<Reading>, maximum: real, deltas: seq<Delta>)
    requires ValidChain(kind, readings, maximum, deltas)
    ensures forall r | r in readings :: r.series.createdAt == readings[0].series.createdAt
    ensures kind == Distribution && deltas != [] ==>
              && readings[0].series.measure.Buckets?
              && forall r | r in readings ::
                   r.series.measure.Buckets? && r.series.measure.bounds == readings[0].series.measure.bounds
  {
    var n := |deltas|;
    if n > 0 {
      ChainsKeepTheirSeries(kind, readings[..n], maximum, deltas[..n - 1]);
      SameSeries(kind, readings[n - 1], readings[n], maximum);
      assert readings == readings[..n] + [readings[n]];
      assert readings[n - 1] in readings[..n] && readings[..n][0] == readings[0];
    }
  }
}
