/**
 Snapshots of inference metrics and the checks `_validate_snapshot` makes on them
 (scripts/lib/inference_metrics.py). The metric vocabulary is a parameter.
 */
module MetricSnapshot {
  import opened Prelude
  import opened Numbers
  import opened Histogram

  const MAX_ENGINE_GROUPS := 32
  const MAX_SERIES := 2048
  const MAX_UNKNOWN_METRICS := 128
  const MAX_NAME := 128
  const MAX_LABEL_BYTES := 256

  // ----- Vocabulary -----

  datatype Kind = Gauge | Counter | Distribution

  datatype Unit = Requests | State | Ratio | OtherUnit(name: string)

  datatype Part = Value | Created | Bucket | Count | Sum

  datatype Definition = Definition(kind: Kind, unit: Unit, extras: set<string>)

  /** The families, and for each sample name its family and what it contributes to it. */
  datatype Vocabulary = Vocabulary(definitions: map<string, Definition>, samples: map<string, (string, Part)>)

  predicate Fits(kind: Kind, part: Part) {
    match part
    case Value => kind != Distribution
    case Created => kind != Gauge
    case _ => kind == Distribution
  }

  /** What the construction of the vocabulary guarantees. */
  predicate Consistent(v: Vocabulary) {
    && (forall family | family in v.definitions ::
          IsMetricName(family) && v.definitions[family].extras !! {"model_name", "engine", "le"})
    && (forall name | name in v.samples ::
          var (family, part) := v.samples[name];
          family in v.definitions && Fits(v.definitions[family].kind, part))
    && (forall a, b | a in v.samples && b in v.samples && v.samples[a] == v.samples[b] :: a == b)
  }

  // ----- Texts -----

  predicate IsLetter(c: char) {
    'a' <= c <= 'z' || 'A' <= c <= 'Z'
  }

  predicate StartsMetric(c: char) {
    IsLetter(c) || c == '_' || c == ':'
  }

  predicate IsMetricName(s: string) {
    0 < |s| <= MAX_NAME && StartsMetric(s[0]) && forall i | 0 <= i < |s| :: StartsMetric(s[i]) || IsDigit(s[i])
  }

  function CharBytes(c: char): nat {
    var code := c as int;
    if code < 0x80 then 1 else if code < 0x800 then 2 else if code < 0x1_0000 then 3 else 4
  }

  /** The length of a text in UTF-8. */
  function Bytes(s: string): nat {
    if s == "" then 0 else Bytes(s[..|s| - 1]) + CharBytes(s[|s| - 1])
  }

  predicate IsText(s: string) {
    s != "" && Bytes(s) <= MAX_LABEL_BYTES && forall i | 0 <= i < |s| :: s[i] as int >= 32
  }

  // ----- Snapshots -----

  datatype SourceState = Observed | Unknown | Unsupported | NotReported | SourceFailed

  datatype Identity = Identity(
    sourceId: string, bootId: Option<string>, processId: Option<string>, configId: Option<string>)

  predicate ValidIdentity(id: Identity) {
    && IsText(id.sourceId)
    && forall t | t in [id.bootId, id.processId, id.configId] && t.Some? :: IsText(t.value)
  }

  predicate Known(id: Identity) {
    id.bootId.Some? && id.processId.Some? && id.configId.Some?
  }

  datatype Measure = Number(value: real) | Buckets(bounds: seq<Bound>, counts: seq<int>, count: int, sum: real)

  datatype Key = Key(name: string, labels: map<string, string>)

  datatype Series = Series(
    key: Key, unit: Unit, typeDeclared: bool, createdAt: Option<real>, sampleAt: Option<real>, measure: Measure)

  datatype EngineKey = EngineKey(model: string, engine: string)

  datatype Engine = Engine(
    key: EngineKey, gauges: seq<Series>, counters: seq<Series>, distributions: seq<Series>, notReported: set<string>)

  datatype Snapshot = Snapshot(
    observedAt: real, source: SourceState, identity: Identity, engines: seq<Engine>,
    unsupported: set<string>, notReported: set<string>)

  function Items(e: Engine, kind: Kind): seq<Series> {
    match kind
    case Gauge => e.gauges
    case Counter => e.counters
    case Distribution => e.distributions
  }

  predicate LegalTime(t: Option<real>) {
    t.Some? ==> LegalWithin(t.value, LATEST_TIME)
  }

  predicate LegalValue(kind: Kind, unit: Unit, x: real) {
    && LegalNumber(x)
    && (kind == Counter || unit == Requests ==> Whole(x))
    && (unit == Ratio ==> x <= 1.0)
    && (unit == State ==> x == 0.0 || x == 1.0)
  }

  predicate ValidMeasure(kind: Kind, unit: Unit, m: Measure) {
    match m
    case Number(x) => kind != Distribution && LegalValue(kind, unit, x)
    case Buckets(bounds, counts, count, sum) => kind == Distribution && Accepted(bounds, counts, count, sum)
  }

  predicate ValidSeries(v: Vocabulary, kind: Kind, s: Series) {
    && s.key.name in v.definitions
    && var d := v.definitions[s.key.name];
    && d.kind == kind && d.unit == s.unit
    && s.key.labels.Keys <= d.extras
    && (forall l | l in s.key.labels :: Bytes(s.key.labels[l]) <= MAX_LABEL_BYTES)
    && LegalTime(s.createdAt) && LegalTime(s.sampleAt)
    && (kind == Gauge ==> s.createdAt.None?)
    && ValidMeasure(kind, s.unit, s.measure)
  }

  predicate DistinctKeys(items: seq<Series>) {
    forall i, j | 0 <= i < j < |items| :: items[i].key != items[j].key
  }

  predicate ValidEngine(v: Vocabulary, e: Engine) {
    && IsText(e.key.model) && IsText(e.key.engine)
    && e.notReported <= v.definitions.Keys
    && (forall kind, s | s in Items(e, kind) :: ValidSeries(v, kind, s))
    && (forall kind :: DistinctKeys(Items(e, kind)))
  }

  function SeriesCount(engines: seq<Engine>): nat {
    if engines == [] then 0
    else
      var e := engines[|engines| - 1];
      SeriesCount(engines[..|engines| - 1]) + |e.gauges| + |e.counters| + |e.distributions|
  }

  function EngineKeys(engines: seq<Engine>): set<EngineKey> {
    set e | e in engines :: e.key
  }

  predicate DistinctEngines(engines: seq<Engine>) {
    forall i, j | 0 <= i < j < |engines| :: engines[i].key != engines[j].key
  }

  predicate ValidSnapshot(v: Vocabulary, s: Snapshot) {
    && ValidIdentity(s.identity) && LegalWithin(s.observedAt, LATEST_TIME)
    && |s.unsupported| <= MAX_UNKNOWN_METRICS && (forall name | name in s.unsupported :: IsMetricName(name))
    && s.notReported <= v.definitions.Keys
    && |s.engines| <= MAX_ENGINE_GROUPS && (s.source != Observed ==> s.engines == [])
    && DistinctEngines(s.engines) && SeriesCount(s.engines) <= MAX_SERIES
    && (forall e | e in s.engines :: ValidEngine(v, e))
  }
}
