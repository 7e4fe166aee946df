/**
 What holds of the table after any number of accepted lines: it is well-formed, within its limits,
 and holds exactly what the sample lines said, none of them overwritten.
 */
module SnapshotDraft {
  import opened Prelude
  import opened Numbers
  import opened Histogram
  import opened MetricSnapshot
  import opened SampleText
  import opened SnapshotLines

  // ----- Texts -----

  predicate ShortValues(labels: map<string, string>) {
    forall l | l in labels :: Bytes(labels[l]) <= MAX_LABEL_BYTES
  }

  lemma {:induction false} LabelsAreShort(s: string, known: map<string, string>)
    requires ShortValues(known) && Labels(s, known).Ok?
    ensures ShortValues(Labels(s, known).value)
    decreases |s|, 1
  {
    var t := TrimLeft(s);
    if t != "" {
      var (name, value, rest) := ReadLabel(t).value;
      LabelsAfterAreShort(rest, AddLabel(known, name, value).value);
    }
  }

  lemma {:induction false} LabelsAfterAreShort(s: string, known: map<string, string>)
    requires ShortValues(known) && LabelsAfter(s, known).Ok?
    ensures ShortValues(LabelsAfter(s, known).value)
    decreases |s|, 0
  {
    if TrimLeft(s) != "" {
      LabelsAreShort(TrimLeft(s)[1..], known);
    }
  }

  lemma SampleIsShort(line: string)
    requires ReadSample(line).Ok?
    ensures ShortValues(ReadSample(line).value.labels)
  {
    var n := MetricLength(line);
    if n < |line| && line[n] == '{' {
      var rest := line[n + 1..];
      LabelsAreShort(rest[..ClosingBrace(rest, false, false).value], map[]);
    }
  }

  lemma {:induction false} RunIsMetric(s: string)
    ensures forall i | 0 <= i < MetricRun(s) :: InMetric(s[i])
  {
    if s != "" && InMetric(s[0]) {
      RunIsMetric(s[1..]);
    }
  }

  // ----- The invariant -----

  function PartOf(place: Place): Part {
    match place
    case AtValue => Value
    case AtCreated => Created
    case AtBound(_) => Bucket
    case AtCount => Count
    case AtSum => Sum
  }

  predicate SoundValue(d: Definition, place: Place, x: real) {
    match place
    case AtValue => LegalValue(d.kind, d.unit, x)
    case AtCreated => LegalTime(Some(x))
    case AtBound(b) => (b.Finite? ==> LegalNumber(b.value)) && Whole(x) && LegalCount(x.Floor)
    case AtCount => Whole(x) && LegalCount(x.Floor)
    case AtSum => LegalNumber(x)
  }

  predicate SoundSlot(v: Vocabulary, slot: Slot, r: Reading) {
    && slot.key.name in v.definitions
    && var d := v.definitions[slot.key.name];
    && Fits(d.kind, PartOf(slot.place)) && SoundValue(d, slot.place, r.value)
    && slot.key.labels.Keys <= d.extras && ShortValues(slot.key.labels)
    && IsText(slot.engine.model) && IsText(slot.engine.engine)
    && LegalTime(r.stamp)
  }

  /** The labels a slot's sample line had, when it was not a bucket. */
  function Origin(slot: Slot): map<string, string> {
    slot.key.labels["model_name" := slot.engine.model]["engine" := slot.engine.engine]
  }

  ghost predicate FromSeen(v: Vocabulary, d: Draft, slot: Slot) {
    exists name :: (name, Origin(slot)) in d.seen && name in v.samples && v.samples[name] == (slot.key.name, PartOf(slot.place))
  }

  ghost predicate Sound(v: Vocabulary, d: Draft) {
    && SoundReadings(v, d)
    && AllFromSeen(v, d) && WithinLimits(d) && FewBounds(d.readings)
  }

  predicate SoundReadings(v: Vocabulary, d: Draft) {
    forall slot | slot in d.readings :: SoundSlot(v, slot, d.readings[slot]) && slot.engine in d.engines
  }

  ghost predicate AllFromSeen(v: Vocabulary, d: Draft) {
    forall slot | slot in d.readings && !slot.place.AtBound? :: FromSeen(v, d, slot)
  }

  predicate WithinLimits(d: Draft) {
    && |d.readings| <= |d.seen| <= MAX_SERIES && |d.engines| <= MAX_ENGINE_GROUPS
    && |d.unknown| <= MAX_UNKNOWN_METRICS && (forall name | name in d.unknown :: IsMetricName(name))
  }

  ghost predicate FewBounds(readings: map<Slot, Reading>) {
    forall engine, key :: |BoundsOf(readings, engine, key)| <= MAX_BUCKETS
  }

  // ----- Entering one sample -----

  /** What a sample line says on its own. */
  function Told(v: Vocabulary, read: string -> Option<real>, s: Sample): Option<(Slot, Reading)>
    requires Consistent(v)
  {
    if s.name !in v.samples || !Usable(v, s) || StampOf(read, s).Err? || Content(v, read, s).Err? then None
    else Some((SlotOf(v, s, Content(v, read, s).value.0), Reading(Content(v, read, s).value.1, StampOf(read, s).value)))
  }

  lemma ContentFits(v: Vocabulary, read: string -> Option<real>, s: Sample)
    requires Consistent(v) && Told(v, read, s).Some? && ShortValues(s.labels)
    ensures var (slot, r) := Told(v, read, s).value;
            && PartOf(slot.place) == v.samples[s.name].1 && slot.key.name == v.samples[s.name].0
            && (IsText(slot.engine.model) && IsText(slot.engine.engine) ==> SoundSlot(v, slot, r))
  {
    var (slot, r) := Told(v, read, s).value;
    assert slot.key.labels.Keys <= v.definitions[slot.key.name].extras;
    assert LegalTime(r.stamp);
  }

  lemma OriginIsItsLabels(v: Vocabulary, s: Sample, place: Place)
    requires Consistent(v) && s.name in v.samples && Usable(v, s) && v.samples[s.name].1 != Bucket
    ensures Origin(SlotOf(v, s, place)) == s.labels
  {
    var slot := SlotOf(v, s, place);
    var extras := v.definitions[v.samples[s.name].0].extras;
    forall l ensures l in Origin(slot) <==> l in s.labels {
      assert l in s.labels ==> l in {"model_name", "engine"} + extras;
    }
  }

  lemma SlotWasSeen(v: Vocabulary, d: Draft, s: Sample, place: Place)
    requires Consistent(v) && Sound(v, d) && s.name in v.samples && Usable(v, s)
    requires !place.AtBound? && PartOf(place) == v.samples[s.name].1 && SlotOf(v, s, place) in d.readings
    ensures (s.name, s.labels) in d.seen
  {
    var slot := SlotOf(v, s, place);
    assert FromSeen(v, d, slot);
    OriginIsItsLabels(v, s, place);
    var name :| (name, Origin(slot)) in d.seen && name in v.samples && v.samples[name] == (slot.key.name, PartOf(slot.place));
    assert v.samples[name] == v.samples[s.name];
  }

  /** An accepted sample goes to a place of its own. */
  lemma PlaceIsFree(v: Vocabulary, read: string -> Option<real>, d: Draft, s: Sample)
    requires Consistent(v) && Sound(v, d) && s.name in v.samples && ShortValues(s.labels)
    requires EnterSample(v, read, d, s).Ok?
    ensures Told(v, read, s).Some? && Told(v, read, s).value.0 !in d.readings
  {
    ContentFits(v, read, s);
    var slot := Told(v, read, s).value.0;
    if !slot.place.AtBound? && slot in d.readings {
      SlotWasSeen(v, d, s, slot.place);
    }
  }

  lemma BoundsAfter(readings: map<Slot, Reading>, slot: Slot, r: Reading, engine: EngineKey, key: Key)
    ensures BoundsOf(readings[slot := r], engine, key) ==
            BoundsOf(readings, engine, key) +
            (if slot.place.AtBound? && slot.engine == engine && slot.key == key then {slot.place.bound} else {})
  {
    var after := BoundsOf(readings[slot := r], engine, key);
    forall b | b in after
      ensures b in BoundsOf(readings, engine, key) ||
              (slot.place.AtBound? && slot.engine == engine && slot.key == key && b == slot.place.bound)
    {
      var t :| t in readings[slot := r] && t.engine == engine && t.key == key && t.place.AtBound? && t.place.bound == b;
      assert t == slot || t in readings;
    }
    forall b | b in BoundsOf(readings, engine, key) ensures b in after {
      var t :| t in readings && t.engine == engine && t.key == key && t.place.AtBound? && t.place.bound == b;
      assert t in readings[slot := r];
    }
    if slot.place.AtBound? && slot.engine == engine && slot.key == key {
      assert slot in readings[slot := r];
    }
  }

  function Grown(d: Draft, s: Sample, slot: Slot, r: Reading): Draft {
    d.(readings := d.readings[slot := r], seen := d.seen + {(s.name, s.labels)}, engines := d.engines + {slot.engine})
  }

  predicate Room(d: Draft, s: Sample, slot: Slot, r: Reading) {
    && IsText(slot.engine.model) && IsText(slot.engine.engine)
    && (s.name, s.labels) !in d.seen && |d.seen| < MAX_SERIES
    && |d.engines + {slot.engine}| <= MAX_ENGINE_GROUPS
    && (slot.place.AtBound? ==> |BoundsOf(d.readings[slot := r], slot.engine, slot.key)| <= MAX_BUCKETS)
  }

  lemma AdmitShape(v: Vocabulary, d: Draft, s: Sample)
    requires Consistent(v) && s.name in v.samples && Admit(v, d, s).Ok?
    ensures Usable(v, s)
    ensures var engine := EngineOf(s.labels);
            && Admit(v, d, s).value == d.(seen := d.seen + {(s.name, s.labels)}, engines := d.engines + {engine})
            && IsText(engine.model) && IsText(engine.engine)
            && (s.name, s.labels) !in d.seen && |d.seen| < MAX_SERIES
            && (engine in d.engines || |d.engines| < MAX_ENGINE_GROUPS)
  {
  }

  lemma EnterShape(v: Vocabulary, read: string -> Option<real>, d: Draft, s: Sample)
    requires Consistent(v) && s.name in v.samples && EnterSample(v, read, d, s).Ok? && |d.engines| <= MAX_ENGINE_GROUPS
    ensures Told(v, read, s).Some?
    ensures var (slot, r) := Told(v, read, s).value;
            EnterSample(v, read, d, s).value == Grown(d, s, slot, r) && Room(d, s, slot, r)
  {
    AdmitShape(v, d, s);
    var slot := Told(v, read, s).value.0;
    if slot.engine in d.engines {
      assert d.engines + {slot.engine} == d.engines;
    }
  }

  lemma SeenStays(v: Vocabulary, d: Draft, next: Draft, name: string, slot: Slot, r: Reading)
    requires AllFromSeen(v, d)
    requires next.readings == d.readings[slot := r] && d.seen <= next.seen
    requires !slot.place.AtBound? ==>
               (name, Origin(slot)) in next.seen && name in v.samples && v.samples[name] == (slot.key.name, PartOf(slot.place))
    ensures AllFromSeen(v, next)
  {
    forall t | t in next.readings && !t.place.AtBound? ensures FromSeen(v, next, t) {
      if t != slot {
        assert FromSeen(v, d, t);
        var before :| (before, Origin(t)) in d.seen && before in v.samples && v.samples[before] == (t.key.name, PartOf(t.place));
        assert (before, Origin(t)) in next.seen;
      }
    }
  }

  lemma BoundsStayFew(d: Draft, slot: Slot, r: Reading)
    requires FewBounds(d.readings)
    requires slot.place.AtBound? ==> |BoundsOf(d.readings[slot := r], slot.engine, slot.key)| <= MAX_BUCKETS
    ensures FewBounds(d.readings[slot := r])
  {
    var after := d.readings[slot := r];
    forall engine, key ensures |BoundsOf(after, engine, key)| <= MAX_BUCKETS {
      BoundsAfter(d.readings, slot, r, engine, key);
      assert |BoundsOf(d.readings, engine, key)| <= MAX_BUCKETS;
      assert BoundsOf(d.readings, engine, key) + {} == BoundsOf(d.readings, engine, key);
    }
  }

  lemma GrownWithinLimits(d: Draft, s: Sample, slot: Slot, r: Reading)
    requires WithinLimits(d) && Room(d, s, slot, r)
    ensures WithinLimits(Grown(d, s, slot, r))
  {
    OneMoreKey(d.readings, slot, r);
    OneMoreElement(d.seen, (s.name, s.labels));
  }

  lemma OneMoreKey<K, V>(m: map<K, V>, k: K, x: V)
    ensures |m[k := x]| <= |m| + 1
  {
    if k in m {
      assert m[k := x].Keys == m.Keys;
    } else {
      assert m[k := x].Keys == m.Keys + {k};
    }
  }

  lemma OneMoreElement<T>(s: set<T>, x: T)
    requires x !in s
    ensures |s + {x}| == |s| + 1
  {
  }

  lemma GrownStaysSound(v: Vocabulary, d: Draft, s: Sample, slot: Slot, r: Reading)
    requires Sound(v, d) && SoundSlot(v, slot, r) && Room(d, s, slot, r)
    requires !slot.place.AtBound? ==>
               Origin(slot) == s.labels && s.name in v.samples && v.samples[s.name] == (slot.key.name, PartOf(slot.place))
    ensures Sound(v, Grown(d, s, slot, r))
  {
    SeenStays(v, d, Grown(d, s, slot, r), s.name, slot, r);
    BoundsStayFew(d, slot, r);
    GrownWithinLimits(d, s, slot, r);
  }

  lemma EnterStaysSound(v: Vocabulary, read: string -> Option<real>, d: Draft, s: Sample)
    requires Consistent(v) && Sound(v, d) && s.name in v.samples && ShortValues(s.labels)
    requires EnterSample(v, read, d, s).Ok?
    ensures Told(v, read, s).Some?
    ensures var (slot, r) := Told(v, read, s).value;
            EnterSample(v, read, d, s).value.readings == d.readings[slot := r]
    ensures Sound(v, EnterSample(v, read, d, s).value)
  {
    EnterShape(v, read, d, s);
    ContentFits(v, read, s);
    var (slot, r) := Told(v, read, s).value;
    if !slot.place.AtBound? {
      OriginIsItsLabels(v, s, slot.place);
    }
    GrownStaysSound(v, d, s, slot, r);
  }

  // ----- Whole payloads -----

  /** What a line says on its own: only sample lines of known metrics say anything. */
  function LineTold(v: Vocabulary, read: string -> Option<real>, line: string): Option<(Slot, Reading)>
    requires Consistent(v)
  {
    var line := TrimRight(TrimLeft(line));
    if line == "" || line[0] == '#' || ReadSample(line).Err? then None else Told(v, read, ReadSample(line).value)
  }

  function After(readings: map<Slot, Reading>, told: Option<(Slot, Reading)>): map<Slot, Reading> {
    if told.None? then readings else readings[told.value.0 := told.value.1]
  }

  lemma SampleHasItsName(line: string)
    requires ReadSample(line).Ok?
    ensures ReadSample(line).value.name == line[..MetricLength(line)]
  {
  }

  ghost predicate StepsTo(v: Vocabulary, d: Draft, next: Draft, told: Option<(Slot, Reading)>) {
    Sound(v, next) && next.readings == After(d.readings, told) && (told.Some? ==> told.value.0 !in d.readings)
  }

  lemma LineStaysSound(v: Vocabulary, read: string -> Option<real>, d: Draft, line: string)
    requires Consistent(v) && Sound(v, d) && ReadLine(v, read, d, line).Ok?
    ensures StepsTo(v, d, ReadLine(v, read, d, line).value, LineTold(v, read, line))
  {
    var text := TrimRight(TrimLeft(line));
    if text == "" {
    } else if text[0] == '#' {
      CommentStaysSound(v, d, text[1..]);
    } else {
      MetricStaysSound(v, read, d, text);
    }
  }

  lemma MetricStaysSound(v: Vocabulary, read: string -> Option<real>, d: Draft, text: string)
    requires Consistent(v) && Sound(v, d) && ReadMetric(v, read, d, text).Ok?
    ensures StepsTo(v, d, ReadMetric(v, read, d, text).value,
                    if ReadSample(text).Err? then None else Told(v, read, ReadSample(text).value))
  {
    var n := MetricLength(text);
    if ReadSample(text).Ok? {
      SampleHasItsName(text);
      SampleIsShort(text);
    }
    if text[..n] in v.samples {
      EnterStaysSound(v, read, d, ReadSample(text).value);
      PlaceIsFree(v, read, d, ReadSample(text).value);
    } else {
      UnknownStaysSound(v, d, text);
    }
  }

  lemma CommentStaysSound(v: Vocabulary, d: Draft, text: string)
    requires Sound(v, d) && ReadComment(d, text).Ok?
    ensures Sound(v, ReadComment(d, text).value) && ReadComment(d, text).value.readings == d.readings
  {
    var next := ReadComment(d, text).value;
    assert next == d.(types := next.types);
    SameButTypes(v, d, next);
  }

  lemma SameButTypes(v: Vocabulary, d: Draft, next: Draft)
    requires Sound(v, d)
    requires next.readings == d.readings && next.seen == d.seen && next.engines == d.engines
    requires |next.unknown| <= MAX_UNKNOWN_METRICS && (forall name | name in next.unknown :: IsMetricName(name))
    ensures Sound(v, next)
  {
    forall slot | slot in next.readings && !slot.place.AtBound? ensures FromSeen(v, next, slot) {
      assert FromSeen(v, d, slot);
    }
  }

  lemma UnknownStaysSound(v: Vocabulary, d: Draft, text: string)
    requires Sound(v, d) && 0 < MetricLength(text) <= MAX_NAME && ReadUnknown(d, text[..MetricLength(text)]).Ok?
    ensures Sound(v, ReadUnknown(d, text[..MetricLength(text)]).value)
    ensures ReadUnknown(d, text[..MetricLength(text)]).value.readings == d.readings
  {
    RunIsMetric(text);
    SameButTypes(v, d, ReadUnknown(d, text[..MetricLength(text)]).value);
  }

  function AllTold(v: Vocabulary, read: string -> Option<real>, lines: seq<string>): (told: seq<Option<(Slot, Reading)>>)
    requires Consistent(v)
    ensures |told| == |lines|
  {
    if lines == [] then []
    else AllTold(v, read, lines[..|lines| - 1]) + [LineTold(v, read, lines[|lines| - 1])]
  }

  /** The readings are exactly what was told, and no two lines told of the same place. */
  ghost predicate HoldsExactly(told: seq<Option<(Slot, Reading)>>, readings: map<Slot, Reading>) {
    && (forall t | t in told && t.Some? :: t.value.0 in readings && readings[t.value.0] == t.value.1)
    && (forall slot | slot in readings :: Some((slot, readings[slot])) in told)
    && (forall i, j | 0 <= i < j < |told| && told[i].Some? && told[j].Some? :: told[i].value.0 != told[j].value.0)
  }

  /** The table after a whole payload holds what its sample lines said, nothing more, and nothing
      that a later line replaced. */
  lemma {:induction false} LinesAreKept(v: Vocabulary, read: string -> Option<real>, lines: seq<string>)
    requires Consistent(v) && ReadLines(v, read, lines).Ok?
    ensures Sound(v, ReadLines(v, read, lines).value)
    ensures HoldsExactly(AllTold(v, read, lines), ReadLines(v, read, lines).value.readings)
  {
    if lines == [] {
      assert Sound(v, BLANK);
    } else {
      var n := |lines| - 1;
      LinesAreKept(v, read, lines[..n]);
      var d := ReadLines(v, read, lines[..n]).value;
      LineStaysSound(v, read, d, lines[n]);
      OneMoreKept(AllTold(v, read, lines[..n]), LineTold(v, read, lines[n]), d.readings);
    }
  }

  lemma OneMoreKept(told: seq<Option<(Slot, Reading)>>, more: Option<(Slot, Reading)>, readings: map<Slot, Reading>)
    requires HoldsExactly(told, readings)
    requires more.Some? ==> more.value.0 !in readings
    ensures HoldsExactly(told + [more], After(readings, more))
  {
    var next := After(readings, more);
    forall slot | slot in next ensures Some((slot, next[slot])) in told + [more] {
      if slot in readings {
        assert Some((slot, readings[slot])) in told;
      }
    }
    forall i, j | 0 <= i < j < |told + [more]| && (told + [more])[i].Some? && (told + [more])[j].Some?
      ensures (told + [more])[i].value.0 != (told + [more])[j].value.0
    {
      assert told[i] in told;
    }
  }
}
