/**
 From a payload to a snapshot (`parse_snapshot` in scripts/lib/inference_metrics.py): whatever the
 payload, a snapshot that comes out passes validation and shows exactly what the lines said.
 The order in which engines and series are listed is left open.
 */
module SnapshotParser {
  import opened Prelude
  import opened Numbers
  import opened Sorting
  import opened Histogram
  import opened MetricSnapshot
  import opened SnapshotLines
  import opened SnapshotDraft

  // ----- What the table says about series -----

  function Elements(bounds: seq<Bound>): set<Bound> {
    set b | b in bounds
  }

  /** The series the table has readings of; a creation time alone does not make one. */
  function SeriesOf(d: Draft): set<(EngineKey, Key)> {
    set s | s in d.readings && s.place != AtCreated :: (s.engine, s.key)
  }

  function OfKind(v: Vocabulary, d: Draft, g: EngineKey, kind: Kind): set<(EngineKey, Key)> {
    set p | p in SeriesOf(d) && p.0 == g && p.1.name in v.definitions && v.definitions[p.1.name].kind == kind
  }

  function StampsOf(d: Draft, g: EngineKey, key: Key): set<Option<real>> {
    set s | s in d.readings && s.engine == g && s.key == key && s.place != AtCreated :: d.readings[s].stamp
  }

  function ValueAt(d: Draft, g: EngineKey, key: Key, place: Place): Option<real> {
    var slot := Slot(g, key, place);
    if slot in d.readings then Some(d.readings[slot].value) else None
  }

  /** A series that shows the readings of its key, all of them and no others. */
  predicate Shows(d: Draft, g: EngineKey, x: Series) {
    && x.createdAt == ValueAt(d, g, x.key, AtCreated)
    && x.typeDeclared == (x.key.name in d.types)
    && StampsOf(d, g, x.key) == {x.sampleAt}
    && match x.measure
       case Number(value) => ValueAt(d, g, x.key, AtValue) == Some(value)
       case Buckets(bounds, counts, count, sum) =>
         && |counts| == |bounds|
         && Elements(bounds) == BoundsOf(d.readings, g, x.key)
         && (forall i | 0 <= i < |bounds| :: ValueAt(d, g, x.key, AtBound(bounds[i])) == Some(counts[i] as real))
         && ValueAt(d, g, x.key, AtCount) == Some(count as real)
         && ValueAt(d, g, x.key, AtSum) == Some(sum)
  }

  predicate ShowsItems(v: Vocabulary, d: Draft, g: EngineKey, kind: Kind, items: seq<Series>) {
    && (set x | x in items :: (g, x.key)) == OfKind(v, d, g, kind)
    && DistinctKeys(items)
    && forall x | x in items :: Shows(d, g, x)
  }

  /** A snapshot that shows the whole table. */
  predicate ShowsAll(v: Vocabulary, d: Draft, s: Snapshot) {
    && (set e | e in s.engines :: e.key) == (set p | p in SeriesOf(d) :: p.0)
    && s.unsupported == d.unknown
    && forall e, kind | e in s.engines :: ShowsItems(v, d, e.key, kind, Items(e, kind))
  }

  // ----- Sorting boundaries -----

  predicate Precedes(a: Bound, b: Bound) {
    a.Finite? && (b.Finite? ==> a.value < b.value)
  }

  predicate Ascending(bounds: seq<Bound>) {
    forall i, j | 0 <= i < j < |bounds| :: Precedes(bounds[i], bounds[j])
  }

  method SortBounds(bounds: set<Bound>) returns (r: seq<Bound>)
    ensures Elements(r) == bounds && Ascending(r)
  {
    var finite := set b | b in bounds && b.Finite?;
    r := Sort(finite, (b: Bound) => if b.Finite? then b.value else 0.0);
    forall i | 0 <= i < |r| ensures r[i].Finite? {
      assert r[i] in r && r[i] in finite;
    }
    assert Elements(r) == finite;
    if Infinite in bounds {
      assert forall b: Bound :: b in r + [Infinite] <==> b in r || b == Infinite;
      r := r + [Infinite];
    }
  }

  /** There is one way to sort boundaries. */
  lemma {:induction false} SortedOneWay(a: seq<Bound>, b: seq<Bound>)
    requires Ascending(a) && Ascending(b) && forall x :: x in a <==> x in b
    ensures a == b
  {
    assert a != [] ==> a[0] in a;
    assert b != [] ==> b[0] in b;
    if a != [] {
      var m, n := |a| - 1, |b| - 1;
      SameLast(a, b);
      forall x ensures x in a[..m] <==> x in b[..n] {
        LastOnce(a, x);
        LastOnce(b, x);
      }
      SortedOneWay(a[..m], b[..n]);
    }
  }

  lemma SameLast(a: seq<Bound>, b: seq<Bound>)
    requires Ascending(a) && Ascending(b) && a != [] && b != [] && forall x :: x in a <==> x in b
    ensures a[|a| - 1] == b[|b| - 1]
  {
    var x, y := a[|a| - 1], b[|b| - 1];
    assert x in b && y in a;
    assert x == y || Precedes(x, y);
    assert x == y || Precedes(y, x);
  }

  lemma LastOnce(a: seq<Bound>, x: Bound)
    requires Ascending(a) && a != []
    ensures x in a[..|a| - 1] <==> x in a && x != a[|a| - 1]
  {
    var n := |a| - 1;
    assert a == a[..n] + [a[n]];
    if x in a[..n] {
      var i :| 0 <= i < n && a[i] == x;
      assert Precedes(x, a[n]);
    }
  }

  // ----- Building series -----

  lemma SlotOfSeries(v: Vocabulary, d: Draft, g: EngineKey, key: Key) returns (slot: Slot)
    requires SoundReadings(v, d) && (g, key) in SeriesOf(d)
    ensures slot in d.readings && slot.engine == g && slot.key == key && slot.place != AtCreated
    ensures SoundSlot(v, slot, d.readings[slot])
  {
    slot :| slot in d.readings && slot.place != AtCreated && (slot.engine, slot.key) == (g, key);
  }

  /** A valid series with this key that shows its readings. */
  ghost predicate Presents(v: Vocabulary, d: Draft, g: EngineKey, kind: Kind, key: Key, x: Series) {
    x.key == key && ValidSeries(v, kind, x) && Shows(d, g, x)
  }

  ghost predicate Presentable(v: Vocabulary, d: Draft, g: EngineKey, kind: Kind, key: Key) {
    && (key.name in d.types ==> d.types[key.name] == TypeName(kind))
    && exists x :: Presents(v, d, g, kind, key, x)
  }

  function TypeName(kind: Kind): string {
    match kind
    case Gauge => "gauge"
    case Counter => "counter"
    case Distribution => "histogram"
  }

  method BuildNumber(v: Vocabulary, d: Draft, g: EngineKey, key: Key) returns (x: Series)
    requires SoundReadings(v, d) && (g, key) in SeriesOf(d)
    requires key.name in v.definitions && v.definitions[key.name].kind != Distribution
    ensures Presents(v, d, g, v.definitions[key.name].kind, key, x)
  {
    ghost var some := SlotOfSeries(v, d, g, key);
    var slot := Slot(g, key, AtValue);
    assert some == slot;
    var r := d.readings[slot];
    var created := ValueAt(d, g, key, AtCreated);
    assert created.Some? ==> SoundSlot(v, Slot(g, key, AtCreated), d.readings[Slot(g, key, AtCreated)]);
    x := Series(key, v.definitions[key.name].unit, key.name in d.types, created, r.stamp, Number(r.value));
    OnlyStamp(v, d, g, key);
  }

  /** A number has one reading, so one stamp. */
  lemma OnlyStamp(v: Vocabulary, d: Draft, g: EngineKey, key: Key)
    requires SoundReadings(v, d) && (g, key) in SeriesOf(d)
    requires key.name in v.definitions && v.definitions[key.name].kind != Distribution
    requires Slot(g, key, AtValue) in d.readings
    ensures StampsOf(d, g, key) == {d.readings[Slot(g, key, AtValue)].stamp}
  {
    forall t | t in StampsOf(d, g, key) ensures t == d.readings[Slot(g, key, AtValue)].stamp {
      var s :| s in d.readings && s.engine == g && s.key == key && s.place != AtCreated && d.readings[s].stamp == t;
      assert SoundSlot(v, s, d.readings[s]);
    }
    assert d.readings[Slot(g, key, AtValue)].stamp in StampsOf(d, g, key);
  }

  method CollectCounts(v: Vocabulary, d: Draft, g: EngineKey, key: Key, bounds: seq<Bound>) returns (counts: seq<int>)
    requires SoundReadings(v, d) && forall b | b in bounds :: b in BoundsOf(d.readings, g, key)
    ensures |counts| == |bounds|
    ensures forall i | 0 <= i < |bounds| :: ValueAt(d, g, key, AtBound(bounds[i])) == Some(counts[i] as real)
  {
    counts := [];
    for i := 0 to |bounds|
      invariant |counts| == i
      invariant forall k | 0 <= k < i :: ValueAt(d, g, key, AtBound(bounds[k])) == Some(counts[k] as real)
    {
      assert bounds[i] in BoundsOf(d.readings, g, key);
      var slot := Slot(g, key, AtBound(bounds[i]));
      assert slot in d.readings && SoundSlot(v, slot, d.readings[slot]);
      counts := counts + [d.readings[slot].value.Floor];
    }
  }

  method BuildDistribution(v: Vocabulary, d: Draft, g: EngineKey, key: Key) returns (r: Result<Series, Refusal>)
    requires SoundReadings(v, d) && (g, key) in SeriesOf(d)
    requires key.name in v.definitions && v.definitions[key.name].kind == Distribution
    ensures r.Ok? ==> Presents(v, d, g, Distribution, key, r.value)
    ensures r.Err? ==> forall x :: !Presents(v, d, g, Distribution, key, x)
  {
    ghost var some := SlotOfSeries(v, d, g, key);
    var stamps := StampsOf(d, g, key);
    if |stamps| != 1 {
      return Err(TimestampMismatch);
    }
    var stamp := TheOne(stamps);
    var bounds := SortBounds(BoundsOf(d.readings, g, key));
    assert forall b | b in bounds :: b in Elements(bounds);
    var counts := CollectCounts(v, d, g, key, bounds);
    var count, sum := ValueAt(d, g, key, AtCount), ValueAt(d, g, key, AtSum);
    var flaw := Check(bounds, counts, if count.Some? then Some(count.value.Floor) else None, sum);
    if flaw.Some? {
      forall x | Presents(v, d, g, Distribution, key, x) ensures false {
        PresentedIsAccepted(v, d, g, key, x, bounds, counts);
      }
      return Err(BadHistogram);
    }
    var created := ValueAt(d, g, key, AtCreated);
    OthersAreSound(v, d, g, key, stamp);
    r := Ok(Series(key, v.definitions[key.name].unit, key.name in d.types, created, stamp,
                   Buckets(bounds, counts, count.value.Floor, sum.value)));
  }

  /** Any series that shows these readings has the boundaries in this order, and these counts. */
  lemma PresentedIsAccepted(v: Vocabulary, d: Draft, g: EngineKey, key: Key, x: Series, bounds: seq<Bound>, counts: seq<int>)
    requires Presents(v, d, g, Distribution, key, x)
    requires Elements(bounds) == BoundsOf(d.readings, g, key) && Ascending(bounds) && |counts| == |bounds|
    requires forall i | 0 <= i < |bounds| :: ValueAt(d, g, key, AtBound(bounds[i])) == Some(counts[i] as real)
    ensures var count, sum := ValueAt(d, g, key, AtCount), ValueAt(d, g, key, AtSum);
            && count.Some? && sum.Some?
            && bounds != [] && |bounds| <= MAX_BUCKETS && bounds[|bounds| - 1].Infinite?
            && Accepted(bounds, counts, count.value.Floor, sum.value)
  {
    var m := x.measure;
    AcceptedAscends(m.bounds, m.counts, m.count, m.sum);
    SameElements(m.bounds, bounds);
    SortedOneWay(m.bounds, bounds);
    forall i | 0 <= i < |bounds| ensures m.counts[i] == counts[i] {
      assert ValueAt(d, g, key, AtBound(bounds[i])) == Some(m.counts[i] as real);
    }
    assert m.counts == counts;
  }

  lemma AcceptedAscends(bounds: seq<Bound>, counts: seq<int>, count: int, sum: real)
    requires Accepted(bounds, counts, count, sum)
    ensures Ascending(bounds) && bounds != [] && |bounds| <= MAX_BUCKETS && bounds[|bounds| - 1].Infinite?
  {
  }

  lemma SameElements(a: seq<Bound>, b: seq<Bound>)
    requires Elements(a) == Elements(b)
    ensures forall x :: x in a <==> x in b
  {
    forall x ensures x in a <==> x in b {
      assert x in Elements(a) <==> x in Elements(b);
    }
  }

  method TheOne<T(==)>(s: set<T>) returns (x: T)
    requires |s| == 1
    ensures s == {x}
  {
    x :| x in s;
    assert |s - {x}| == 0;
    assert s == {x} + (s - {x});
  }

  lemma OthersAreSound(v: Vocabulary, d: Draft, g: EngineKey, key: Key, stamp: Option<real>)
    requires SoundReadings(v, d) && stamp in StampsOf(d, g, key)
    ensures LegalTime(stamp)
    ensures LegalTime(ValueAt(d, g, key, AtCreated))
    ensures var count := ValueAt(d, g, key, AtCount); count.Some? ==> Whole(count.value)
  {
    var s :| s in d.readings && s.engine == g && s.key == key && s.place != AtCreated && d.readings[s].stamp == stamp;
    assert SoundSlot(v, s, d.readings[s]);
    assert Slot(g, key, AtCreated) in d.readings ==>
        SoundSlot(v, Slot(g, key, AtCreated), d.readings[Slot(g, key, AtCreated)]);
    assert Slot(g, key, AtCount) in d.readings ==> SoundSlot(v, Slot(g, key, AtCount), d.readings[Slot(g, key, AtCount)]);
  }

  // ----- Building engines -----

  method BuildSeries(v: Vocabulary, d: Draft, g: EngineKey, kind: Kind, key: Key) returns (r: Result<Series, Refusal>)
    requires SoundReadings(v, d) && (g, key) in OfKind(v, d, g, kind)
    ensures r.Ok? ==> Presents(v, d, g, kind, key, r.value)
    ensures r.Ok? <==> Presentable(v, d, g, kind, key)
  {
    if key.name in d.types && d.types[key.name] != TypeName(kind) {
      return Err(TypeMismatch);
    }
    if kind == Distribution {
      r := BuildDistribution(v, d, g, key);
    } else {
      var x := BuildNumber(v, d, g, key);
      r := Ok(x);
    }
  }

  predicate Built(v: Vocabulary, d: Draft, g: EngineKey, kind: Kind, done: set<(EngineKey, Key)>, items: seq<Series>) {
    && (set x | x in items :: (g, x.key)) == done && |items| == |done| && DistinctKeys(items)
    && forall x | x in items :: ValidSeries(v, kind, x) && Shows(d, g, x)
  }

  lemma OneMoreBuilt(v: Vocabulary, d: Draft, g: EngineKey, kind: Kind, done: set<(EngineKey, Key)>, items: seq<Series>, x: Series)
    requires Built(v, d, g, kind, done, items) && (g, x.key) !in done && ValidSeries(v, kind, x) && Shows(d, g, x)
    ensures Built(v, d, g, kind, done + {(g, x.key)}, items + [x])
  {
    var more := items + [x];
    assert forall y :: y in more <==> y in items || y == x;
    OneMoreKey(g, items, x, done);
    forall i | 0 <= i < |items| ensures items[i].key != x.key {
      assert items[i] in items && (g, items[i].key) in done;
    }
  }

  lemma OneMoreKey(g: EngineKey, items: seq<Series>, x: Series, done: set<(EngineKey, Key)>)
    requires (set y | y in items :: (g, y.key)) == done
    ensures (set y | y in items + [x] :: (g, y.key)) == done + {(g, x.key)}
  {
    assert x in items + [x];
    assert forall y :: y in items + [x] <==> y in items || y == x;
  }

  ghost predicate AllPresentable(v: Vocabulary, d: Draft, g: EngineKey, kind: Kind) {
    forall p | p in OfKind(v, d, g, kind) :: Presentable(v, d, g, kind, p.1)
  }

  method BuildItems(v: Vocabulary, d: Draft, g: EngineKey, kind: Kind) returns (r: Result<seq<Series>, Refusal>)
    requires SoundReadings(v, d)
    ensures r.Ok? ==> Built(v, d, g, kind, OfKind(v, d, g, kind), r.value)
    ensures r.Ok? <==> AllPresentable(v, d, g, kind)
  {
    var items: seq<Series> := [];
    var all, done := OfKind(v, d, g, kind), {};
    while done != all
      invariant done <= all && Built(v, d, g, kind, done, items)
      invariant forall p | p in done :: Presentable(v, d, g, kind, p.1)
      decreases |all - done|
    {
      SomeLeft(all, done);
      var p :| p in all - done;
      var x := BuildSeries(v, d, g, kind, p.1);
      if x.Err? {
        return Err(x.reason);
      }
      OneMoreBuilt(v, d, g, kind, done, items, x.value);
      OneLess(all, done, p);
      items := items + [x.value];
      done := done + {p};
    }
    r := Ok(items);
  }

  function SeriesOfEngine(d: Draft, g: EngineKey): set<(EngineKey, Key)> {
    set p | p in SeriesOf(d) && p.0 == g
  }

  ghost predicate BuiltEngine(v: Vocabulary, d: Draft, e: Engine) {
    && ValidEngine(v, e)
    && (forall kind :: ShowsItems(v, d, e.key, kind, Items(e, kind)))
    && |e.gauges| + |e.counters| + |e.distributions| == |SeriesOfEngine(d, e.key)|
  }

  lemma KindsAreAll(v: Vocabulary, d: Draft, g: EngineKey)
    requires SoundReadings(v, d)
    ensures |OfKind(v, d, g, Gauge)| + |OfKind(v, d, g, Counter)| + |OfKind(v, d, g, Distribution)| == |SeriesOfEngine(d, g)|
  {
    var a, b, c := OfKind(v, d, g, Gauge), OfKind(v, d, g, Counter), OfKind(v, d, g, Distribution);
    forall p ensures p in SeriesOfEngine(d, g) <==> p in a + b + c {
      OneKind(v, d, g, p);
    }
    ThreeParts(SeriesOfEngine(d, g), a, b, c);
  }

  lemma OneKind(v: Vocabulary, d: Draft, g: EngineKey, p: (EngineKey, Key))
    requires SoundReadings(v, d)
    ensures p in SeriesOfEngine(d, g) <==>
            p in OfKind(v, d, g, Gauge) || p in OfKind(v, d, g, Counter) || p in OfKind(v, d, g, Distribution)
  {
    if p in SeriesOfEngine(d, g) {
      HasKind(v, d, p);
    }
  }

  lemma HasKind(v: Vocabulary, d: Draft, p: (EngineKey, Key))
    requires SoundReadings(v, d) && p in SeriesOf(d)
    ensures p.1.name in v.definitions && p in OfKind(v, d, p.0, v.definitions[p.1.name].kind)
  {
    var slot := SlotOfSeries(v, d, p.0, p.1);
  }

  lemma ThreeParts<T>(all: set<T>, a: set<T>, b: set<T>, c: set<T>)
    requires (forall p :: p in all <==> p in a + b + c) && a !! b && a !! c && b !! c
    ensures |a| + |b| + |c| == |all|
  {
    assert all == a + b + c;
  }

  ghost predicate EnginePresentable(v: Vocabulary, d: Draft, g: EngineKey) {
    forall kind :: AllPresentable(v, d, g, kind)
  }

  method BuildEngine(v: Vocabulary, d: Draft, g: EngineKey) returns (r: Result<Engine, Refusal>)
    requires SoundReadings(v, d) && SeriesOfEngine(d, g) != {}
    ensures r.Ok? ==> r.value.key == g && BuiltEngine(v, d, r.value)
    ensures r.Ok? <==> EnginePresentable(v, d, g)
  {
    var gauges := BuildItems(v, d, g, Gauge);
    if gauges.Err? {
      return Err(gauges.reason);
    }
    var counters := BuildItems(v, d, g, Counter);
    if counters.Err? {
      return Err(counters.reason);
    }
    var distributions := BuildItems(v, d, g, Distribution);
    if distributions.Err? {
      return Err(distributions.reason);
    }
    var present := set p | p in SeriesOf(d) && p.0 == g :: p.1.name;
    var e := Engine(g, gauges.value, counters.value, distributions.value, v.definitions.Keys - present);
    EngineIsBuilt(v, d, e);
    EveryKindPresentable(v, d, g);
    r := Ok(e);
  }

  lemma EveryKindPresentable(v: Vocabulary, d: Draft, g: EngineKey)
    requires AllPresentable(v, d, g, Gauge) && AllPresentable(v, d, g, Counter) && AllPresentable(v, d, g, Distribution)
    ensures EnginePresentable(v, d, g)
  {
    forall kind ensures AllPresentable(v, d, g, kind) {
    }
  }

  lemma EngineIsBuilt(v: Vocabulary, d: Draft, e: Engine)
    requires SoundReadings(v, d) && SeriesOfEngine(d, e.key) != {} && e.notReported <= v.definitions.Keys
    requires Built(v, d, e.key, Gauge, OfKind(v, d, e.key, Gauge), e.gauges)
    requires Built(v, d, e.key, Counter, OfKind(v, d, e.key, Counter), e.counters)
    requires Built(v, d, e.key, Distribution, OfKind(v, d, e.key, Distribution), e.distributions)
    ensures BuiltEngine(v, d, e)
  {
    KindsAreAll(v, d, e.key);
    EngineIsText(v, d, e.key);
    forall kind ensures Built(v, d, e.key, kind, OfKind(v, d, e.key, kind), Items(e, kind)) {
    }
    BuiltIsValid(v, d, e);
  }

  lemma EngineIsText(v: Vocabulary, d: Draft, g: EngineKey)
    requires SoundReadings(v, d) && SeriesOfEngine(d, g) != {}
    ensures IsText(g.model) && IsText(g.engine) && g in d.engines
  {
    var p :| p in SeriesOfEngine(d, g);
    var slot := SlotOfSeries(v, d, p.0, p.1);
  }

  lemma BuiltIsValid(v: Vocabulary, d: Draft, e: Engine)
    requires SoundReadings(v, d) && IsText(e.key.model) && IsText(e.key.engine) && e.notReported <= v.definitions.Keys
    requires forall kind :: Built(v, d, e.key, kind, OfKind(v, d, e.key, kind), Items(e, kind))
    ensures ValidEngine(v, e) && forall kind :: ShowsItems(v, d, e.key, kind, Items(e, kind))
  {
    forall kind ensures DistinctKeys(Items(e, kind)) && ShowsItems(v, d, e.key, kind, Items(e, kind))
      ensures forall s | s in Items(e, kind) :: ValidSeries(v, kind, s)
    {
      assert Built(v, d, e.key, kind, OfKind(v, d, e.key, kind), Items(e, kind));
    }
  }

  // ----- Building the snapshot -----

  function EnginesOf(d: Draft): set<EngineKey> {
    set p | p in SeriesOf(d) :: p.0
  }

  function SeriesOfEngines(d: Draft, done: set<EngineKey>): set<(EngineKey, Key)> {
    set p | p in SeriesOf(d) && p.0 in done
  }

  ghost predicate BuiltEngines(v: Vocabulary, d: Draft, done: set<EngineKey>, engines: seq<Engine>) {
    && EngineKeys(engines) == done && |engines| == |done| && DistinctEngines(engines)
    && forall e | e in engines :: BuiltEngine(v, d, e)
  }

  lemma OneMoreEngineKey(engines: seq<Engine>, e: Engine)
    ensures EngineKeys(engines + [e]) == EngineKeys(engines) + {e.key}
    ensures DistinctEngines(engines) && e.key !in EngineKeys(engines) ==> DistinctEngines(engines + [e])
  {
    assert e in engines + [e];
    assert forall x :: x in engines + [e] <==> x in engines || x == e;
    assert forall i | 0 <= i < |engines| :: engines[i] in engines && engines[i].key in EngineKeys(engines);
  }

  lemma OneMoreCounted(d: Draft, done: set<EngineKey>, engines: seq<Engine>, e: Engine)
    requires SeriesCount(engines) == |SeriesOfEngines(d, done)| && e.key !in done
    requires |e.gauges| + |e.counters| + |e.distributions| == |SeriesOfEngine(d, e.key)|
    ensures SeriesCount(engines + [e]) == |SeriesOfEngines(d, done + {e.key})|
  {
    assert (engines + [e])[..|engines|] == engines;
    var mine, before := SeriesOfEngine(d, e.key), SeriesOfEngines(d, done);
    assert SeriesOfEngines(d, done + {e.key}) == before + mine;
    assert before * mine == {};
  }

  lemma OneMoreEngine(v: Vocabulary, d: Draft, done: set<EngineKey>, engines: seq<Engine>, e: Engine)
    requires BuiltEngines(v, d, done, engines) && e.key !in done && BuiltEngine(v, d, e)
    ensures BuiltEngines(v, d, done + {e.key}, engines + [e])
  {
    OneMoreEngineKey(engines, e);
    assert forall x :: x in engines + [e] <==> x in engines || x == e;
  }

  lemma {:induction false} SeriesAreCounted(v: Vocabulary, d: Draft, engines: seq<Engine>)
    requires DistinctEngines(engines) && forall e | e in engines :: BuiltEngine(v, d, e)
    ensures SeriesCount(engines) == |SeriesOfEngines(d, EngineKeys(engines))|
  {
    if engines == [] {
      assert SeriesOfEngines(d, {}) == {};
    } else {
      var n := |engines| - 1;
      var front := engines[..n];
      assert engines == front + [engines[n]];
      SeriesAreCounted(v, d, front);
      OneMoreEngineKey(front, engines[n]);
      assert BuiltEngine(v, d, engines[n]);
      OneMoreCounted(d, EngineKeys(front), front, engines[n]);
    }
  }

  lemma FewSeries(v: Vocabulary, d: Draft)
    requires Sound(v, d)
    ensures |SeriesOf(d)| <= MAX_SERIES
  {
    ImageIsSmaller(d, d.readings.Keys);
    assert SeriesOf(d) == SeriesAmong(d.readings.Keys);
  }

  function SeriesAmong(slots: set<Slot>): set<(EngineKey, Key)> {
    set s | s in slots && s.place != AtCreated :: (s.engine, s.key)
  }

  lemma {:induction false} ImageIsSmaller(d: Draft, slots: set<Slot>)
    ensures |SeriesAmong(slots)| <= |slots|
    decreases |slots|
  {
    if slots != {} {
      var s :| s in slots;
      var rest := slots - {s};
      ImageIsSmaller(d, rest);
      assert SeriesAmong(slots) <= SeriesAmong(rest) + {(s.engine, s.key)};
      SubsetIsSmaller(SeriesAmong(slots), SeriesAmong(rest) + {(s.engine, s.key)});
    }
  }

  lemma {:induction false} SubsetIsSmaller<T>(a: set<T>, b: set<T>)
    requires a <= b
    ensures |a| <= |b|
  {
    assert b == a + (b - a);
  }

  lemma HasSomeSeries(d: Draft, g: EngineKey)
    requires g in EnginesOf(d)
    ensures SeriesOfEngine(d, g) != {}
  {
    var p :| p in SeriesOf(d) && p.0 == g;
    assert p in SeriesOfEngine(d, g);
  }

  method BuildEngines(v: Vocabulary, d: Draft) returns (r: Result<seq<Engine>, Refusal>)
    requires SoundReadings(v, d)
    ensures r.Ok? ==> BuiltEngines(v, d, EnginesOf(d), r.value)
    ensures r.Ok? <==> forall g | g in EnginesOf(d) :: EnginePresentable(v, d, g)
  {
    var engines: seq<Engine> := [];
    var all, done := EnginesOf(d), {};
    while done != all
      invariant done <= all && BuiltEngines(v, d, done, engines)
      invariant forall g | g in done :: EnginePresentable(v, d, g)
      decreases |all - done|
    {
      SomeLeft(all, done);
      var g :| g in all - done;
      HasSomeSeries(d, g);
      var e := BuildEngine(v, d, g);
      if e.Err? {
        return Err(e.reason);
      }
      OneMoreEngine(v, d, done, engines, e.value);
      OneLess(all, done, g);
      engines := engines + [e.value];
      done := done + {g};
    }
    r := Ok(engines);
  }

  // ----- Parsing -----

  /** A declared type of a creation time has to be a gauge. */
  predicate CreatedTyped(v: Vocabulary, d: Draft) {
    forall p | p in d.seen && p.0 in v.samples && v.samples[p.0].1 == Created && p.0 in d.types :: d.types[p.0] == "gauge"
  }

  ghost predicate Finishable(v: Vocabulary, d: Draft) {
    CreatedTyped(v, d) && forall g | g in EnginesOf(d) :: EnginePresentable(v, d, g)
  }

  lemma BuiltSnapshotIsValid(v: Vocabulary, d: Draft, s: Snapshot)
    requires Sound(v, d) && BuiltEngines(v, d, EnginesOf(d), s.engines)
    requires ValidIdentity(s.identity) && LegalWithin(s.observedAt, LATEST_TIME)
    requires s.source == Observed && s.unsupported == d.unknown && s.notReported <= v.definitions.Keys
    ensures ValidSnapshot(v, s) && ShowsAll(v, d, s)
  {
    FewSeries(v, d);
    SeriesAreCounted(v, d, s.engines);
    SubsetIsSmaller(SeriesOfEngines(d, EnginesOf(d)), SeriesOf(d));
    forall g | g in EnginesOf(d) ensures g in d.engines {
      HasSomeSeries(d, g);
      EngineIsText(v, d, g);
    }
    SubsetIsSmaller(EnginesOf(d), d.engines);
  }

  /** A snapshot comes out exactly when the request is sound, every line is accepted and every
      series can be presented; it is valid, and its series show what the sample lines said. */
  method ParseSnapshot(v: Vocabulary, read: string -> Option<real>, source: SourceState, observedAt: real, identity: Identity,
                       payload: Option<seq<string>>)
    returns (r: Result<Snapshot, Refusal>)
    requires Consistent(v)
    ensures r.Ok? <==>
            && LegalWithin(observedAt, LATEST_TIME) && ValidIdentity(identity) && (payload.Some? <==> source == Observed)
            && (payload.Some? ==>
                  && |payload.value| <= MAX_LINES && ReadLines(v, read, payload.value).Ok?
                  && Finishable(v, ReadLines(v, read, payload.value).value))
    ensures r.Ok? ==>
              && ValidSnapshot(v, r.value)
              && r.value.source == source && r.value.observedAt == observedAt && r.value.identity == identity
    ensures r.Ok? && payload.Some? ==>
              var d := ReadLines(v, read, payload.value).value;
              HoldsExactly(AllTold(v, read, payload.value), d.readings) && ShowsAll(v, d, r.value)
  {
    if !LegalWithin(observedAt, LATEST_TIME) {
      return Err(BadNumber);
    }
    if !ValidIdentity(identity) {
      return Err(BadText);
    }
    if payload.Some? != (source == Observed) {
      return Err(BadRequest);
    }
    if payload.None? {
      return Ok(Snapshot(observedAt, source, identity, [], {}, v.definitions.Keys));
    }
    if |payload.value| > MAX_LINES {
      return Err(LineLimit);
    }
    var parsed := ParseLines(v, read, payload.value);
    if parsed.Err? {
      return Err(parsed.reason);
    }
    var d := parsed.value;
    LinesAreKept(v, read, payload.value);
    if !CreatedTyped(v, d) {
      return Err(TypeMismatch);
    }
    var engines := BuildEngines(v, d);
    if engines.Err? {
      return Err(engines.reason);
    }
    var reported := set p | p in SeriesOf(d) :: p.1.name;
    var s := Snapshot(observedAt, Observed, identity, engines.value, d.unknown, v.definitions.Keys - reported);
    BuiltSnapshotIsValid(v, d, s);
    r := Ok(s);
  }
}
