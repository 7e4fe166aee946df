/**
 Writing labels and reading them back: the escaping of the Prometheus text exposition format
 against the reader in SampleText.
 */
module SampleRoundTrip {
  import opened Prelude
  import opened MetricSnapshot
  import opened SampleText

  // ----- Writing -----

  function EscapeChar(c: char): string {
    if c == '\\' then "\\\\" else if c == '"' then "\\\"" else if c == '\n' then "\\n" else [c]
  }

  function Escape(s: string): string {
    if s == "" then "" else EscapeChar(s[0]) + Escape(s[1..])
  }

  type Pairs = seq<(string, string)>

  function Write(pairs: Pairs): string {
    if pairs == [] then ""
    else
      pairs[0].0 + "=\"" + Escape(pairs[0].1) + "\"" + (if |pairs| == 1 then "" else "," + Write(pairs[1..]))
  }

  /** What adding the pairs one by one comes to. */
  function Collect(pairs: Pairs, known: map<string, string>): Result<map<string, string>, TextFlaw> {
    if pairs == [] then Ok(known)
    else
      var labels := AddLabel(known, pairs[0].0, pairs[0].1);
      if labels.Err? then labels else Collect(pairs[1..], labels.value)
  }

  predicate LegalNames(pairs: Pairs) {
    forall p | p in pairs :: IsLabelName(p.0)
  }

  // ----- Reading back -----

  lemma {:induction false} ValueReadBack(value: string, rest: string)
    ensures ReadValue(Escape(value) + "\"" + rest) == Ok((value, rest))
  {
    var text := Escape(value) + "\"" + rest;
    if value == "" {
      assert text == "\"" + rest;
      assert text[1..] == rest;
    } else {
      var c, tail := value[0], Escape(value[1..]) + "\"" + rest;
      assert text == EscapeChar(c) + tail;
      ValueReadBack(value[1..], rest);
      assert [c] + value[1..] == value;
      if |EscapeChar(c)| == 1 {
        assert text[1..] == tail;
      } else {
        assert text[2..] == tail;
      }
    }
  }

  lemma {:induction false} NameReadBack(name: string, rest: string)
    requires (forall i | 0 <= i < |name| :: InLabel(name[i])) && rest != "" && !InLabel(rest[0])
    ensures Run(name + rest) == |name|
  {
    if name == "" {
      assert name + rest == rest;
    } else {
      assert (name + rest)[1..] == name[1..] + rest;
      NameReadBack(name[1..], rest);
    }
  }

  lemma MarkReadBack(mark: char, rest: string)
    requires !IsSpace(mark)
    ensures After([mark] + rest, mark) == Ok(rest)
  {
    assert ([mark] + rest)[1..] == rest;
  }

  lemma AssignedReadBack(value: string, rest: string)
    ensures ReadAssigned("=\"" + (Escape(value) + "\"" + rest)) == Ok((value, rest))
  {
    var quoted := Escape(value) + "\"" + rest;
    assert "=\"" + quoted == ['='] + (['"'] + quoted);
    MarkReadBack('=', ['"'] + quoted);
    MarkReadBack('"', quoted);
    ValueReadBack(value, rest);
  }

  lemma LabelReadBack(name: string, value: string, rest: string)
    requires IsLabelName(name)
    ensures ReadLabel(name + "=\"" + Escape(value) + "\"" + rest) == Ok((name, value, rest))
  {
    var behind := "=\"" + (Escape(value) + "\"" + rest);
    assert name + "=\"" + Escape(value) + "\"" + rest == name + behind;
    NameReadBack(name, behind);
    AssignedReadBack(value, rest);
    assert (name + behind)[..|name|] == name && (name + behind)[|name|..] == behind;
  }

  function Rest(pairs: Pairs): string {
    if |pairs| <= 1 then "" else "," + Write(pairs[1..])
  }

  lemma FirstReadBack(pairs: Pairs, known: map<string, string>)
    requires LegalNames(pairs) && pairs != []
    ensures var labels := AddLabel(known, pairs[0].0, pairs[0].1);
            Labels(Write(pairs), known) == if labels.Err? then labels else LabelsAfter(Rest(pairs), labels.value)
  {
    var (name, value) := pairs[0];
    assert pairs[0] in pairs;
    LabelReadBack(name, value, Rest(pairs));
    var text := name + "=\"" + Escape(value) + "\"" + Rest(pairs);
    assert Write(pairs) == text;
    assert text[0] == name[0] && TrimLeft(text) == text;
  }

  /** Reading written labels comes to adding the pairs one by one: the same map, or the same refusal. */
  lemma {:induction false} LabelsReadBack(pairs: Pairs, known: map<string, string>)
    requires LegalNames(pairs)
    ensures Labels(Write(pairs), known) == Collect(pairs, known)
  {
    if pairs != [] {
      FirstReadBack(pairs, known);
      var labels := AddLabel(known, pairs[0].0, pairs[0].1);
      if |pairs| > 1 && labels.Ok? {
        assert Rest(pairs)[1..] == Write(pairs[1..]);
        assert forall p | p in pairs[1..] :: p in pairs;
        LabelsReadBack(pairs[1..], labels.value);
      }
    }
  }

  // ----- When the pairs are accepted -----

  predicate Distinct(pairs: Pairs) {
    forall i, j | 0 <= i < j < |pairs| :: pairs[i].0 != pairs[j].0
  }

  predicate Short(pairs: Pairs) {
    forall p | p in pairs :: Bytes(p.1) <= MAX_LABEL_BYTES
  }

  predicate Fresh(pairs: Pairs, known: map<string, string>) {
    forall p | p in pairs :: p.0 !in known
  }

  lemma {:induction false} CollectExactly(pairs: Pairs, known: map<string, string>)
    ensures Collect(pairs, known).Ok? <==>
            Distinct(pairs) && Short(pairs) && Fresh(pairs, known) && (pairs == [] || |known| + |pairs| <= MAX_LABELS)
    ensures Collect(pairs, known).Ok? ==>
              var m := Collect(pairs, known).value;
              && (forall p | p in pairs :: p.0 in m && m[p.0] == p.1)
              && (forall k | k in known :: k in m && m[k] == known[k])
              && |m| == |known| + |pairs|
  {
    if pairs != [] {
      var (name, value) := pairs[0];
      var rest := pairs[1..];
      assert pairs == [pairs[0]] + rest;
      var labels := AddLabel(known, name, value);
      if labels.Ok? {
        CollectExactly(rest, labels.value);
        FreshOfRest(pairs, known, value);
      } else {
        assert pairs[0] in pairs;
      }
    }
  }

  lemma FreshOfRest(pairs: Pairs, known: map<string, string>, value: string)
    requires pairs != [] && pairs[0].0 !in known
    ensures Distinct(pairs) && Fresh(pairs, known) <==> Distinct(pairs[1..]) && Fresh(pairs[1..], known[pairs[0].0 := value])
    ensures Short(pairs) <==> Short(pairs[1..]) && Bytes(pairs[0].1) <= MAX_LABEL_BYTES
  {
    var rest := pairs[1..];
    assert pairs == [pairs[0]] + rest;
    assert forall p :: p in pairs <==> p == pairs[0] || p in rest;
    if Distinct(rest) && Fresh(rest, known[pairs[0].0 := value]) {
      forall i, j | 0 <= i < j < |pairs| ensures pairs[i].0 != pairs[j].0 {
        assert pairs[j] == rest[j - 1] && rest[j - 1] in rest;
      }
    }
    if Distinct(pairs) {
      forall i, j | 0 <= i < j < |rest| ensures rest[i].0 != rest[j].0 {
        assert rest[i] == pairs[i + 1] && rest[j] == pairs[j + 1];
      }
    }
  }

  // ----- The scan for the closing brace -----

  lemma {:induction false} ScanSpaces(s: string, tail: string)
    ensures ClosingBrace(s + tail, false, false) ==
            Later(|s| - |TrimLeft(s)|, ClosingBrace(TrimLeft(s) + tail, false, false))
  {
    if s != "" && IsSpace(s[0]) {
      assert (s + tail)[1..] == s[1..] + tail;
      ScanSpaces(s[1..], tail);
    }
  }

  lemma {:induction false} ScanRun(s: string, n: nat, tail: string)
    requires n <= Run(s)
    ensures ClosingBrace(s + tail, false, false) == Later(n, ClosingBrace(s[n..] + tail, false, false))
  {
    if n > 0 {
      assert (s + tail)[1..] == s[1..] + tail;
      assert s[1..][n - 1..] == s[n..];
      ScanRun(s[1..], n - 1, tail);
    }
  }

  lemma {:induction false} ScanValue(s: string, tail: string)
    requires ReadValue(s).Ok?
    ensures var rest := ReadValue(s).value.1;
            ClosingBrace(s + tail, true, false) == Later(|s| - |rest|, ClosingBrace(rest + tail, false, false))
  {
    assert (s + tail)[1..] == s[1..] + tail;
    if s[0] == '\\' {
      assert (s + tail)[1..][1..] == s[2..] + tail;
      ScanValue(s[2..], tail);
    } else if s[0] != '"' {
      ScanValue(s[1..], tail);
    }
  }

  lemma ScanMark(s: string, mark: char, tail: string)
    requires After(s, mark).Ok? && mark != '}' && mark != '"'
    ensures var rest := After(s, mark).value;
            ClosingBrace(s + tail, false, false) == Later(|s| - |rest|, ClosingBrace(rest + tail, false, false))
  {
    ScanSpaces(s, tail);
    var t := TrimLeft(s);
    assert (t + tail)[1..] == t[1..] + tail;
  }

  lemma ScanQuote(s: string, tail: string)
    requires After(s, '"').Ok?
    ensures var rest := After(s, '"').value;
            ClosingBrace(s + tail, false, false) == Later(|s| - |rest|, ClosingBrace(rest + tail, true, false))
  {
    ScanSpaces(s, tail);
    var t := TrimLeft(s);
    assert (t + tail)[1..] == t[1..] + tail;
  }

  lemma ScanLabel(s: string, tail: string)
    requires ReadLabel(s).Ok?
    ensures var rest := ReadLabel(s).value.2;
            ClosingBrace(s + tail, false, false) == Later(|s| - |rest|, ClosingBrace(rest + tail, false, false))
  {
    var n := LabelLength(s);
    ScanRun(s, n, tail);
    ScanMark(s[n..], '=', tail);
    var equals := After(s[n..], '=').value;
    ScanQuote(equals, tail);
    ScanValue(After(equals, '"').value, tail);
  }

  lemma OneLabelRead(text: string, known: map<string, string>)
    requires Labels(text, known).Ok? && TrimLeft(text) != ""
    ensures ReadLabel(TrimLeft(text)).Ok?
    ensures var (name, value, rest) := ReadLabel(TrimLeft(text)).value;
            |rest| < |text| && AddLabel(known, name, value).Ok? && LabelsAfter(rest, AddLabel(known, name, value).value).Ok?
  {
    assert LabelsAt(TrimLeft(text), known).Ok?;
  }

  /** Whatever label text the reader accepts, in any spacing and with any braces and quotes inside
      its values, the brace that closes it is found right behind it. */
  lemma {:induction false} BraceIsFound(text: string, known: map<string, string>, after: string)
    requires Labels(text, known).Ok? && after != "" && after[0] == '}'
    ensures ClosingBrace(text + after, false, false) == Some(|text|)
    decreases |text|, 1
  {
    ScanSpaces(text, after);
    var s := TrimLeft(text);
    if s == "" {
      assert s + after == after;
    } else {
      OneLabelRead(text, known);
      var (name, value, rest) := ReadLabel(s).value;
      ScanLabel(s, after);
      BraceIsFoundAfter(rest, AddLabel(known, name, value).value, after);
    }
  }

  lemma {:induction false} BraceIsFoundAfter(rest: string, known: map<string, string>, after: string)
    requires LabelsAfter(rest, known).Ok? && after != "" && after[0] == '}'
    ensures ClosingBrace(rest + after, false, false) == Some(|rest|)
    decreases |rest|, 0
  {
    if TrimLeft(rest) == "" {
      ScanSpaces(rest, after);
      assert "" + after == after;
    } else {
      ScanMark(rest, ',', after);
      BraceIsFound(TrimLeft(rest)[1..], known, after);
    }
  }

  // ----- Whole lines -----

  predicate IsWord(s: string) {
    s != "" && forall i | 0 <= i < |s| :: !IsSpace(s[i])
  }

  lemma {:induction false} MetricReadBack(name: string, rest: string)
    requires (forall i | 0 <= i < |name| :: InMetric(name[i])) && rest != "" && !InMetric(rest[0])
    ensures MetricRun(name + rest) == |name|
  {
    if name == "" {
      assert name + rest == rest;
    } else {
      assert (name + rest)[1..] == name[1..] + rest;
      MetricReadBack(name[1..], rest);
    }
  }

  lemma {:induction false} WordReadBack(word: string, rest: string)
    requires (forall i | 0 <= i < |word| :: !IsSpace(word[i])) && (rest == "" || IsSpace(rest[0]))
    ensures WordLength(word + rest) == |word|
  {
    if word == "" {
      assert word + rest == rest;
    } else {
      assert (word + rest)[1..] == word[1..] + rest;
      WordReadBack(word[1..], rest);
    }
  }

  function WriteReading(value: string, stamp: Option<string>): string {
    " " + value + (if stamp.Some? then " " + stamp.value else "")
  }

  lemma WordsReadBack(word: string, rest: string)
    requires IsWord(word) && (rest == "" || IsSpace(rest[0]))
    ensures Words(" " + word + rest) == [word] + Words(rest)
  {
    var text := " " + word + rest;
    assert text[1..] == word + rest;
    assert TrimLeft(word + rest) == word + rest;
    WordReadBack(word, rest);
    assert (word + rest)[..|word|] == word && (word + rest)[|word|..] == rest;
  }

  lemma ReadingReadBack(name: string, labels: map<string, string>, value: string, stamp: Option<string>)
    requires IsWord(value) && (stamp.Some? ==> IsWord(stamp.value))
    ensures ReadReading(name, labels, WriteReading(value, stamp)) == Ok(Sample(name, labels, value, stamp))
  {
    var rest := if stamp.Some? then " " + stamp.value else "";
    assert WriteReading(value, stamp) == " " + value + rest;
    WordsReadBack(value, rest);
    if stamp.Some? {
      WordsReadBack(stamp.value, "");
      assert rest == " " + stamp.value + "";
    }
  }

  lemma NameIsCut(name: string, braced: string)
    requires IsMetricName(name)
    ensures MetricLength(name + "{" + braced) == |name|
    ensures (name + "{" + braced)[..|name|] == name && (name + "{" + braced)[|name| + 1..] == braced
  {
    assert name + "{" + braced == name + ("{" + braced);
    MetricReadBack(name, "{" + braced);
  }

  lemma LabelsAreCut(text: string, reading: string)
    requires Labels(text, map[]).Ok?
    ensures ReadBraced(text + ("}" + reading)) == Ok((Labels(text, map[]).value, reading))
  {
    var braced := text + ("}" + reading);
    BraceIsFound(text, map[], "}" + reading);
    assert braced[..|text|] == text && braced[|text| + 1..] == reading;
  }

  lemma SameLine(name: string, text: string, reading: string)
    ensures name + "{" + text + "}" + reading == name + "{" + (text + ("}" + reading))
  {
    var head := name + "{";
    assert (head + text) + ("}" + reading) == head + (text + ("}" + reading));
    assert (head + text + "}") + reading == (head + text) + ("}" + reading);
  }

  /** A line with any label text the reader accepts gives those labels and the reading behind them. */
  lemma LineReadBack(name: string, text: string, value: string, stamp: Option<string>)
    requires IsMetricName(name) && IsWord(value) && (stamp.Some? ==> IsWord(stamp.value))
    requires Labels(text, map[]).Ok?
    ensures ReadSample(name + "{" + text + "}" + WriteReading(value, stamp)) ==
            Ok(Sample(name, Labels(text, map[]).value, value, stamp))
  {
    var reading := WriteReading(value, stamp);
    var braced := text + ("}" + reading);
    var line := name + "{" + text + "}" + reading;
    SameLine(name, text, reading);
    NameIsCut(name, braced);
    LabelsAreCut(text, reading);
    assert ReadSample(line) == ReadReading(name, Labels(text, map[]).value, reading);
    ReadingReadBack(name, Labels(text, map[]).value, value, stamp);
  }

  /** Writing a sample and reading it back gives the sample, for up to eight labels with distinct
      legal names and values of up to 256 bytes that may hold anything: quotes, backslashes,
      braces, line ends. */
  lemma SampleReadBack(name: string, pairs: Pairs, value: string, stamp: Option<string>)
    requires IsMetricName(name) && IsWord(value) && (stamp.Some? ==> IsWord(stamp.value))
    requires LegalNames(pairs) && Distinct(pairs) && Short(pairs) && |pairs| <= MAX_LABELS
    ensures var r := ReadSample(name + "{" + Write(pairs) + "}" + WriteReading(value, stamp));
            && r.Ok? && r.value == Sample(name, r.value.labels, value, stamp)
            && |r.value.labels| == |pairs|
            && forall p | p in pairs :: p.0 in r.value.labels && r.value.labels[p.0] == p.1
  {
    LabelsReadBack(pairs, map[]);
    CollectExactly(pairs, map[]);
    LineReadBack(name, Write(pairs), value, stamp);
  }
}
