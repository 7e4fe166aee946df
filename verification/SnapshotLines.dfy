/**
 Reading a metrics payload line by line (the loop of `parse_snapshot` in
 scripts/lib/inference_metrics.py). What the lines say is kept in one table, from the place a
 reading belongs to, to the reading; the program spreads the same table over nested dictionaries.
 How a number text is written is a parameter: `read` gives its exact value, if it is well-formed.
 */
module SnapshotLines {
  import opened Prelude
  import opened Numbers
  import opened Histogram
  import opened MetricSnapshot
  import opened SampleText

  const MAX_LINES := 16384
  const MAX_LINE_BYTES := 16384

  datatype Refusal =
    | LineLimit | TypeSyntax | TypeMismatch | BadSample(flaw: TextFlaw) | BadNumber | LabelsUnsupported | BadText
    | UnknownLimit | DuplicateSeries | SeriesLimit | EngineLimit | RatioOutOfRange | StateOutOfRange
    | DuplicateBoundary | BucketLimit | TimestampMismatch | BadHistogram | BadRequest

  // ----- Numbers -----

  function NumberOf(read: string -> Option<real>, text: string, count: bool, maximum: real): (x: Option<real>)
    ensures x.Some? ==> LegalWithin(x.value, maximum) && (count ==> Whole(x.value) && LegalCount(x.value.Floor))
  {
    var x := read(text);
    if x.Some? && LegalWithin(x.value, maximum) && (count ==> Whole(x.value)) then x else None
  }

  // ----- What a line says -----

  datatype Place = AtValue | AtCreated | AtBound(bound: Bound) | AtCount | AtSum

  datatype Slot = Slot(engine: EngineKey, key: Key, place: Place)

  datatype Reading = Reading(value: real, stamp: Option<real>)

  datatype Draft = Draft(
    readings: map<Slot, Reading>, engines: set<EngineKey>, types: map<string, string>, unknown: set<string>,
    seen: set<(string, map<string, string>)>)

  const BLANK := Draft(map[], {}, map[], {}, {})

  function TrimRight(s: string): string {
    if s != "" && IsSpace(s[|s| - 1]) then TrimRight(s[..|s| - 1]) else s
  }

  function ReadType(d: Draft, words: seq<string>): Result<Draft, Refusal> {
    if |words| != 2 || !IsMetricName(words[0]) then Err(TypeSyntax)
    else if words[0] in d.types && d.types[words[0]] != words[1] then Err(TypeMismatch)
    else Ok(d.(types := d.types[words[0] := words[1]]))
  }

  function ReadComment(d: Draft, text: string): Result<Draft, Refusal> {
    var rest := TrimLeft(text);
    if |rest| >= 4 && rest[..4] == "TYPE" && (|rest| == 4 || IsSpace(rest[4])) then ReadType(d, Words(rest[4..])) else Ok(d)
  }

  function ReadUnknown(d: Draft, name: string): Result<Draft, Refusal> {
    var unknown := d.unknown + {name};
    if |unknown| > MAX_UNKNOWN_METRICS then Err(UnknownLimit) else Ok(d.(unknown := unknown))
  }

  function Permitted(extras: set<string>, part: Part): set<string> {
    {"model_name", "engine"} + extras + (if part == Bucket then {"le"} else {})
  }

  function Chosen(labels: map<string, string>, names: set<string>): map<string, string> {
    map l | l in labels && l in names :: labels[l]
  }

  function EngineOf(labels: map<string, string>): EngineKey
    requires "model_name" in labels && "engine" in labels
  {
    EngineKey(labels["model_name"], labels["engine"])
  }

  predicate Usable(v: Vocabulary, s: Sample)
    requires Consistent(v) && s.name in v.samples
  {
    var (family, part) := v.samples[s.name];
    && s.labels.Keys <= Permitted(v.definitions[family].extras, part)
    && "model_name" in s.labels && s.labels["model_name"] != ""
    && "engine" in s.labels && s.labels["engine"] != ""
    && (part == Bucket ==> "le" in s.labels)
  }

  function BoundOf(read: string -> Option<real>, text: string): Option<Bound> {
    if text == "+Inf" then Some(Infinite)
    else
      var x := NumberOf(read, text, false, LARGEST_NUMBER);
      if x.None? then None else Some(Finite(x.value))
  }

  function StampOf(read: string -> Option<real>, s: Sample): Result<Option<real>, Refusal> {
    if s.stamp.None? then Ok(None)
    else
      var x := NumberOf(read, s.stamp.value, false, 1e15);
      if x.None? then Err(BadNumber) else Ok(Some(x.value / 1000.0))
  }

  function SlotOf(v: Vocabulary, s: Sample, place: Place): Slot
    requires Consistent(v) && s.name in v.samples && Usable(v, s)
  {
    var family := v.samples[s.name].0;
    Slot(EngineOf(s.labels), Key(family, Chosen(s.labels, v.definitions[family].extras)), place)
  }

  /** Where a sample belongs, and the value it gives there. */
  function Content(v: Vocabulary, read: string -> Option<real>, s: Sample): Result<(Place, real), Refusal>
    requires Consistent(v) && s.name in v.samples && Usable(v, s)
  {
    var (family, part) := v.samples[s.name];
    var definition := v.definitions[family];
    match part
    case Created =>
      var x := NumberOf(read, s.value, false, LATEST_TIME);
      if x.None? then Err(BadNumber) else Ok((AtCreated, x.value))
    case Value =>
      var x := NumberOf(read, s.value, definition.kind == Counter || definition.unit == Requests, LARGEST_NUMBER);
      if x.None? then Err(BadNumber)
      else if definition.unit == Ratio && x.value > 1.0 then Err(RatioOutOfRange)
      else if definition.unit == State && x.value != 0.0 && x.value != 1.0 then Err(StateOutOfRange)
      else Ok((AtValue, x.value))
    case Bucket =>
      var bound := BoundOf(read, s.labels["le"]);
      var x := NumberOf(read, s.value, true, LARGEST_NUMBER);
      if bound.None? || x.None? then Err(BadNumber) else Ok((AtBound(bound.value), x.value))
    case Count =>
      var x := NumberOf(read, s.value, true, LARGEST_NUMBER);
      if x.None? then Err(BadNumber) else Ok((AtCount, x.value))
    case Sum =>
      var x := NumberOf(read, s.value, false, LARGEST_NUMBER);
      if x.None? then Err(BadNumber) else Ok((AtSum, x.value))
  }

  function BoundsOf(readings: map<Slot, Reading>, engine: EngineKey, key: Key): set<Bound> {
    set s | s in readings && s.engine == engine && s.key == key && s.place.AtBound? :: s.place.bound
  }

  function Enter(d: Draft, slot: Slot, reading: Reading): Result<Draft, Refusal> {
    var readings := d.readings[slot := reading];
    if slot.place.AtBound? && |BoundsOf(readings, slot.engine, slot.key)| > MAX_BUCKETS then Err(BucketLimit)
    else Ok(d.(readings := readings))
  }

  /** The checks that come before a value is looked at. */
  function Admit(v: Vocabulary, d: Draft, s: Sample): Result<Draft, Refusal>
    requires Consistent(v) && s.name in v.samples
  {
    if !Usable(v, s) then Err(LabelsUnsupported)
    else
      var engine := EngineOf(s.labels);
      if !IsText(engine.model) || !IsText(engine.engine) then Err(BadText)
      else if (s.name, s.labels) in d.seen then Err(DuplicateSeries)
      else if |d.seen| + 1 > MAX_SERIES then Err(SeriesLimit)
      else if engine !in d.engines && |d.engines| >= MAX_ENGINE_GROUPS then Err(EngineLimit)
      else Ok(d.(seen := d.seen + {(s.name, s.labels)}, engines := d.engines + {engine}))
  }

  /** A boundary the same histogram has already given, perhaps in another spelling. */
  predicate Repeats(v: Vocabulary, read: string -> Option<real>, d: Draft, s: Sample)
    requires Consistent(v) && s.name in v.samples && Usable(v, s)
  {
    && v.samples[s.name].1 == Bucket
    && var bound := BoundOf(read, s.labels["le"]);
       bound.Some? && SlotOf(v, s, AtBound(bound.value)) in d.readings
  }

  function EnterSample(v: Vocabulary, read: string -> Option<real>, d: Draft, s: Sample): Result<Draft, Refusal>
    requires Consistent(v) && s.name in v.samples
  {
    var stamp := StampOf(read, s);
    if stamp.Err? then Err(stamp.reason)
    else
      var admitted := Admit(v, d, s);
      if admitted.Err? then admitted
      else if Repeats(v, read, d, s) then Err(DuplicateBoundary)
      else
        var content := Content(v, read, s);
        if content.Err? then Err(content.reason)
        else Enter(admitted.value, SlotOf(v, s, content.value.0), Reading(content.value.1, stamp.value))
  }

  function ReadMetric(v: Vocabulary, read: string -> Option<real>, d: Draft, line: string): Result<Draft, Refusal>
    requires Consistent(v)
  {
    var n := MetricLength(line);
    if n == 0 || n > MAX_NAME then Err(BadSample(SampleSyntax))
    else if line[..n] !in v.samples then ReadUnknown(d, line[..n])
    else
      var s := ReadSample(line);
      if s.Err? then Err(BadSample(s.reason)) else EnterSample(v, read, d, s.value)
  }

  function ReadLine(v: Vocabulary, read: string -> Option<real>, d: Draft, line: string): Result<Draft, Refusal>
    requires Consistent(v)
  {
    if Bytes(line) > MAX_LINE_BYTES then Err(LineLimit)
    else
      var line := TrimRight(TrimLeft(line));
      if line == "" then Ok(d)
      else if line[0] == '#' then ReadComment(d, line[1..])
      else ReadMetric(v, read, d, line)
  }

  function ReadLines(v: Vocabulary, read: string -> Option<real>, lines: seq<string>): Result<Draft, Refusal>
    requires Consistent(v)
  {
    if lines == [] then Ok(BLANK)
    else
      var d := ReadLines(v, read, lines[..|lines| - 1]);
      if d.Err? then d else ReadLine(v, read, d.value, lines[|lines| - 1])
  }

  /** The program's loop over the lines. */
  method ParseLines(v: Vocabulary, read: string -> Option<real>, lines: seq<string>) returns (r: Result<Draft, Refusal>)
    requires Consistent(v)
    ensures r == ReadLines(v, read, lines)
  {
    var d := BLANK;
    assert lines[..0] == [];
    for i := 0 to |lines|
      invariant ReadLines(v, read, lines[..i]) == Ok(d)
    {
      assert lines[..i + 1][..i] == lines[..i];
      var next := ReadLine(v, read, d, lines[i]);
      if next.Err? {
        RefusalStays(v, read, lines, i + 1);
        return next;
      }
      d := next.value;
    }
    assert lines[..|lines|] == lines;
    r := Ok(d);
  }

  lemma {:induction false} RefusalStays(v: Vocabulary, read: string -> Option<real>, lines: seq<string>, n: nat)
    requires Consistent(v) && n <= |lines| && ReadLines(v, read, lines[..n]).Err?
    ensures ReadLines(v, read, lines) == ReadLines(v, read, lines[..n])
  {
    if n == |lines| {
      assert lines[..n] == lines;
    } else {
      var front := lines[..|lines| - 1];
      assert front[..n] == lines[..n];
      RefusalStays(v, read, front, n);
    }
  }
}
