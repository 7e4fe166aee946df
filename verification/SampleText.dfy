/**
 Sample lines of the Prometheus text exposition format as scripts/lib/inference_metrics.py reads
 them: `_labels` and `_sample`, against the escaping the format prescribes for label values.
 The functions work on the text still to be read; the methods move a position through the line.
 */
module SampleText {
  import opened Prelude
  import opened MetricSnapshot

  datatype TextFlaw = LabelSyntax | LabelEscape | DuplicateLabel | LabelLimit | SampleSyntax

  const MAX_LABELS := 8

  // ----- Characters -----

  /** White space as `str.isspace` and `str.split` see it. */
  predicate IsSpace(c: char) {
    var code := c as int;
    || 9 <= code <= 13 || 28 <= code <= 32 || code == 0x85 || code == 0xa0 || code == 0x1680
    || 0x2000 <= code <= 0x200a || code == 0x2028 || code == 0x2029 || code == 0x202f || code == 0x205f || code == 0x3000
  }

  predicate StartsLabel(c: char) {
    IsLetter(c) || c == '_'
  }

  predicate InLabel(c: char) {
    StartsLabel(c) || IsDigit(c)
  }

  predicate IsLabelName(s: string) {
    s != "" && StartsLabel(s[0]) && forall i | 0 <= i < |s| :: InLabel(s[i])
  }

  predicate InMetric(c: char) {
    StartsMetric(c) || IsDigit(c)
  }

  // ----- Reading labels -----

  function TrimLeft(s: string): (r: string)
    ensures |r| <= |s|
  {
    if s != "" && IsSpace(s[0]) then TrimLeft(s[1..]) else s
  }

  /** The length of the longest run of label characters at the front. */
  function Run(s: string): (n: nat)
    ensures n <= |s|
  {
    if s != "" && InLabel(s[0]) then 1 + Run(s[1..]) else 0
  }

  function LabelLength(s: string): (n: nat)
    ensures n <= |s|
  {
    if s != "" && StartsLabel(s[0]) then Run(s) else 0
  }

  function Unescape(c: char): Option<char> {
    if c == '\\' || c == '"' then Some(c) else if c == 'n' then Some('\n') else None
  }

  /** The value up to the closing quote, and the text after that quote. */
  function ReadValue(s: string): (r: Result<(string, string), TextFlaw>)
    ensures r.Ok? ==> |r.value.1| < |s|
  {
    if s == "" then Err(LabelSyntax)
    else if s[0] == '"' then Ok(("", s[1..]))
    else if s[0] == '\\' then
      if |s| < 2 || Unescape(s[1]).None? then Err(LabelEscape)
      else Prepend(Unescape(s[1]).value, ReadValue(s[2..]))
    else Prepend(s[0], ReadValue(s[1..]))
  }

  function Prepend(c: char, r: Result<(string, string), TextFlaw>): Result<(string, string), TextFlaw> {
    match r
    case Ok((value, rest)) => Ok(([c] + value, rest))
    case Err(e) => Err(e)
  }

  function AddLabel(labels: map<string, string>, name: string, value: string): Result<map<string, string>, TextFlaw> {
    if name in labels then Err(DuplicateLabel)
    else if Bytes(value) > MAX_LABEL_BYTES || |labels| >= MAX_LABELS then Err(LabelLimit)
    else Ok(labels[name := value])
  }

  /** The text after a mark that may have white space before it. */
  function After(s: string, mark: char): (r: Result<string, TextFlaw>)
    ensures r.Ok? ==> |r.value| < |s|
  {
    var s := TrimLeft(s);
    if s == "" || s[0] != mark then Err(LabelSyntax) else Ok(s[1..])
  }

  /** One label read from trimmed text: its name, its value, and the text after it. */
  function ReadLabel(s: string): (r: Result<(string, string, string), TextFlaw>)
    ensures r.Ok? ==> |r.value.2| < |s|
  {
    var n := LabelLength(s);
    if n == 0 then Err(LabelSyntax)
    else
      var value := ReadAssigned(s[n..]);
      if value.Err? then Err(value.reason) else Ok((s[..n], value.value.0, value.value.1))
  }

  function ReadAssigned(s: string): (r: Result<(string, string), TextFlaw>)
    ensures r.Ok? ==> |r.value.1| < |s|
  {
    var equals := After(s, '=');
    if equals.Err? then Err(equals.reason)
    else
      var quoted := After(equals.value, '"');
      if quoted.Err? then Err(quoted.reason) else ReadValue(quoted.value)
  }

  function Labels(s: string, known: map<string, string>): Result<map<string, string>, TextFlaw>
    decreases |s|, 1
  {
    LabelsAt(TrimLeft(s), known)
  }

  function LabelsAt(s: string, known: map<string, string>): Result<map<string, string>, TextFlaw>
    decreases |s|, 0
  {
    if s == "" then Ok(known)
    else
      match ReadLabel(s)
      case Err(e) => Err(e)
      case Ok((name, value, rest)) =>
        var labels := AddLabel(known, name, value);
        if labels.Err? then labels else LabelsAfter(rest, labels.value)
  }

  function LabelsAfter(s: string, known: map<string, string>): Result<map<string, string>, TextFlaw>
    decreases |s|, 0
  {
    var s := TrimLeft(s);
    if s == "" then Ok(known)
    else if s[0] != ',' then Err(LabelSyntax)
    else Labels(s[1..], known)
  }

  // ----- Reading a line -----

  function MetricRun(s: string): (n: nat)
    ensures n <= |s|
  {
    if s != "" && InMetric(s[0]) then 1 + MetricRun(s[1..]) else 0
  }

  function MetricLength(s: string): (n: nat)
    ensures n <= |s|
  {
    if s != "" && StartsMetric(s[0]) then MetricRun(s) else 0
  }

  /** Where the brace that closes the labels is: the first one outside quotes. */
  function ClosingBrace(s: string, quoted: bool, escaped: bool): (r: Option<nat>)
    ensures r.Some? ==> r.value < |s|
  {
    if s == "" then None
    else if escaped then Later(1, ClosingBrace(s[1..], quoted, false))
    else if s[0] == '\\' && quoted then Later(1, ClosingBrace(s[1..], quoted, true))
    else if s[0] == '"' then Later(1, ClosingBrace(s[1..], !quoted, false))
    else if s[0] == '}' && !quoted then Some(0)
    else Later(1, ClosingBrace(s[1..], quoted, false))
  }

  function Later(n: nat, r: Option<nat>): Option<nat> {
    if r.Some? then Some(n + r.value) else None
  }

  function WordLength(s: string): (n: nat)
    ensures n <= |s|
  {
    if s == "" || IsSpace(s[0]) then 0 else 1 + WordLength(s[1..])
  }

  /** The words between white space. */
  function Words(s: string): seq<string>
    decreases |s|
  {
    var s := TrimLeft(s);
    if s == "" then []
    else
      var n := WordLength(s);
      if n == 0 then [] else [s[..n]] + Words(s[n..])
  }

  datatype Sample = Sample(name: string, labels: map<string, string>, value: string, stamp: Option<string>)

  function ReadReading(name: string, labels: map<string, string>, rest: string): Result<Sample, TextFlaw> {
    if rest == "" || !IsSpace(rest[0]) then Err(SampleSyntax)
    else
      var words := Words(rest);
      if |words| == 1 then Ok(Sample(name, labels, words[0], None))
      else if |words| == 2 then Ok(Sample(name, labels, words[0], Some(words[1])))
      else Err(SampleSyntax)
  }

  /** The labels of the text after an opening brace, and the text after the closing one. */
  function ReadBraced(s: string): (r: Result<(map<string, string>, string), TextFlaw>) {
    var end := ClosingBrace(s, false, false);
    if end.None? then Err(SampleSyntax)
    else
      var labels := Labels(s[..end.value], map[]);
      if labels.Err? then Err(labels.reason) else Ok((labels.value, s[end.value + 1..]))
  }

  function ReadSample(line: string): Result<Sample, TextFlaw> {
    var n := MetricLength(line);
    if n == 0 || n > MAX_NAME then Err(SampleSyntax)
    else if n == |line| || line[n] != '{' then ReadReading(line[..n], map[], line[n..])
    else
      var braced := ReadBraced(line[n + 1..]);
      if braced.Err? then Err(braced.reason) else ReadReading(line[..n], braced.value.0, braced.value.1)
  }

  // ----- The program's loops -----

  method SkipSpaces(text: string, start: nat) returns (pos: nat)
    requires start <= |text|
    ensures start <= pos <= |text| && text[pos..] == TrimLeft(text[start..])
  {
    pos := start;
    while pos < |text| && IsSpace(text[pos])
      invariant start <= pos <= |text| && TrimLeft(text[pos..]) == TrimLeft(text[start..])
    {
      assert text[pos..][1..] == text[pos + 1..];
      pos := pos + 1;
    }
  }

  method MatchLabel(text: string, start: nat) returns (pos: nat)
    requires start <= |text|
    ensures pos == start + LabelLength(text[start..])
  {
    pos := start;
    if pos < |text| && StartsLabel(text[pos]) {
      while pos < |text| && InLabel(text[pos])
        invariant start <= pos <= |text| && pos + Run(text[pos..]) == start + Run(text[start..])
      {
        assert text[pos..][1..] == text[pos + 1..];
        pos := pos + 1;
      }
    }
  }

  function Concat(chars: string, r: Result<(string, string), TextFlaw>): Result<(string, string), TextFlaw> {
    match r
    case Ok((value, rest)) => Ok((chars + value, rest))
    case Err(e) => Err(e)
  }

  lemma ConcatNothing(r: Result<(string, string), TextFlaw>)
    ensures Concat("", r) == r
  {
    assert r.Ok? ==> "" + r.value.0 == r.value.0;
  }

  lemma ConcatOne(chars: string, c: char, r: Result<(string, string), TextFlaw>)
    ensures Concat(chars, Prepend(c, r)) == Concat(chars + [c], r)
  {
    assert r.Ok? ==> chars + ([c] + r.value.0) == chars + [c] + r.value.0;
  }

  /** Reads the characters of a value; the position ends at the closing quote. */
  method Value(text: string, start: nat) returns (r: Result<(string, nat), TextFlaw>)
    requires start <= |text|
    ensures match ReadValue(text[start..])
            case Ok((value, rest)) =>
              r.Ok? && r.value.0 == value && start <= r.value.1 < |text| && text[r.value.1 + 1..] == rest
            case Err(e) => r == Err(e)
  {
    var pos, chars := start, "";
    ConcatNothing(ReadValue(text[start..]));
    while pos < |text| && text[pos] != '"'
      invariant start <= pos <= |text|
      invariant ReadValue(text[start..]) == Concat(chars, ReadValue(text[pos..]))
    {
      var c := text[pos];
      assert text[pos..][1..] == text[pos + 1..];
      pos := pos + 1;
      if c == '\\' {
        if pos == |text| || Unescape(text[pos]).None? {
          return Err(LabelEscape);
        }
        c := Unescape(text[pos]).value;
        assert text[pos - 1..][2..] == text[pos + 1..];
        pos := pos + 1;
      }
      ConcatOne(chars, c, ReadValue(text[pos..]));
      chars := chars + [c];
    }
    if pos == |text| {
      return Err(LabelSyntax);
    }
    assert text[pos..][1..] == text[pos + 1..];
    r := Ok((chars, pos));
  }

  method SkipPast(text: string, start: nat, mark: char) returns (r: Result<nat, TextFlaw>)
    requires start <= |text|
    ensures match After(text[start..], mark)
            case Ok(rest) => r.Ok? && start < r.value <= |text| && text[r.value..] == rest
            case Err(e) => r == Err(e)
  {
    var pos := SkipSpaces(text, start);
    if pos == |text| || text[pos] != mark {
      return Err(LabelSyntax);
    }
    assert text[pos..][1..] == text[pos + 1..];
    r := Ok(pos + 1);
  }

  /** One label, from its name to the position after its closing quote. */
  method ParseLabel(text: string, start: nat) returns (r: Result<(string, string, nat), TextFlaw>)
    requires start <= |text|
    ensures match ReadLabel(text[start..])
            case Ok((name, value, rest)) =>
              r.Ok? && r.value.0 == name && r.value.1 == value && start < r.value.2 <= |text| && text[r.value.2..] == rest
            case Err(e) => r == Err(e)
  {
    var end := MatchLabel(text, start);
    if end == start {
      return Err(LabelSyntax);
    }
    assert text[start..end] == text[start..][..end - start];
    assert text[end..] == text[start..][end - start..];
    var equals := SkipPast(text, end, '=');
    if equals.Err? {
      return Err(equals.reason);
    }
    var quoted := SkipPast(text, equals.value, '"');
    if quoted.Err? {
      return Err(quoted.reason);
    }
    var value := Value(text, quoted.value);
    match value {
      case Err(e) => r := Err(e);
      case Ok((chars, quote)) => r := Ok((text[start..end], chars, quote + 1));
    }
  }

  /** What separates a label from the next: a comma, unless the text ends. */
  method Separator(text: string, start: nat, ghost labels: map<string, string>) returns (r: Result<nat, TextFlaw>)
    requires start <= |text|
    ensures r.Ok? ==> start <= r.value <= |text|
    ensures LabelsAfter(text[start..], labels) == if r.Ok? then Labels(text[r.value..], labels) else Err(r.reason)
  {
    var pos := SkipSpaces(text, start);
    if pos < |text| {
      if text[pos] != ',' {
        return Err(LabelSyntax);
      }
      assert text[pos..][1..] == text[pos + 1..];
      pos := pos + 1;
    }
    r := Ok(pos);
  }

  method ParseLabels(text: string) returns (r: Result<map<string, string>, TextFlaw>)
    ensures r == Labels(text, map[])
  {
    var labels: map<string, string> := map[];
    var pos := 0;
    assert text[0..] == text;
    while pos < |text|
      invariant 0 <= pos <= |text| && Labels(text, map[]) == Labels(text[pos..], labels)
    {
      pos := SkipSpaces(text, pos);
      if pos == |text| {
        return Ok(labels);
      }
      var entry := ParseLabel(text, pos);
      if entry.Err? {
        return Err(entry.reason);
      }
      var (name, value, after) := entry.value;
      if name in labels {
        return Err(DuplicateLabel);
      }
      if Bytes(value) > MAX_LABEL_BYTES || |labels| >= MAX_LABELS {
        return Err(LabelLimit);
      }
      labels := labels[name := value];
      var next := Separator(text, after, labels);
      if next.Err? {
        return Err(next.reason);
      }
      pos := next.value;
    }
    r := Ok(labels);
  }

  method MatchMetric(line: string) returns (pos: nat)
    ensures pos == MetricLength(line)
  {
    pos := 0;
    if line != "" && StartsMetric(line[0]) {
      assert line[0..] == line;
      while pos < |line| && InMetric(line[pos])
        invariant 0 <= pos <= |line| && pos + MetricRun(line[pos..]) == MetricRun(line)
      {
        assert line[pos..][1..] == line[pos + 1..];
        pos := pos + 1;
      }
    }
  }

  method FindBrace(line: string, start: nat) returns (pos: nat)
    requires start <= |line|
    ensures match ClosingBrace(line[start..], false, false)
            case None => pos == |line|
            case Some(n) => pos == start + n < |line|
  {
    pos := start;
    var quoted, escaped := false, false;
    while pos < |line|
      invariant start <= pos <= |line|
      invariant ClosingBrace(line[start..], false, false) == Later(pos - start, ClosingBrace(line[pos..], quoted, escaped))
    {
      assert line[pos..][1..] == line[pos + 1..];
      var c := line[pos];
      if escaped {
        escaped := false;
      } else if c == '\\' && quoted {
        escaped := true;
      } else if c == '"' {
        quoted := !quoted;
      } else if c == '}' && !quoted {
        return;
      }
      pos := pos + 1;
    }
  }

  method ParseBraced(line: string, begin: nat) returns (r: Result<(map<string, string>, nat), TextFlaw>)
    requires begin <= |line|
    ensures match ReadBraced(line[begin..])
            case Ok((labels, rest)) => r.Ok? && r.value.0 == labels && r.value.1 <= |line| && line[r.value.1..] == rest
            case Err(e) => r == Err(e)
  {
    var pos := FindBrace(line, begin);
    if pos == |line| {
      return Err(SampleSyntax);
    }
    assert line[begin..pos] == line[begin..][..pos - begin];
    assert line[pos + 1..] == line[begin..][pos - begin + 1..];
    var labels := ParseLabels(line[begin..pos]);
    match labels {
      case Err(e) => r := Err(e);
      case Ok(found) => r := Ok((found, pos + 1));
    }
  }

  method ParseSample(line: string) returns (r: Result<Sample, TextFlaw>)
    ensures r == ReadSample(line)
  {
    var pos := MatchMetric(line);
    if pos == 0 || pos > MAX_NAME {
      return Err(SampleSyntax);
    }
    var name := line[..pos];
    var labels: map<string, string> := map[];
    if pos < |line| && line[pos] == '{' {
      var braced := ParseBraced(line, pos + 1);
      if braced.Err? {
        return Err(braced.reason);
      }
      labels := braced.value.0;
      pos := braced.value.1;
    }
    r := ReadReading(name, labels, line[pos..]);
  }
}
