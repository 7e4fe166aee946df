/**
 A payload as text: `parse_snapshot` in scripts/lib/inference_metrics.py cuts it into lines with
 `str.splitlines`, which knows more line ends than the format escapes.
 */
module PayloadLines {
  import opened Prelude
  import opened MetricSnapshot
  import opened SampleText
  import opened SampleRoundTrip
  import opened SnapshotLines

  /** Where `str.splitlines` ends a line. */
  predicate IsBreak(c: char) {
    var code := c as int;
    10 <= code <= 13 || 28 <= code <= 30 || code == 0x85 || code == 0x2028 || code == 0x2029
  }

  function LineLength(s: string): (n: nat)
    ensures n <= |s| && (n < |s| ==> IsBreak(s[n])) && forall i | 0 <= i < n :: !IsBreak(s[i])
  {
    if s == "" || IsBreak(s[0]) then 0 else 1 + LineLength(s[1..])
  }

  /** Where the next line starts: a carriage return and a line feed are one line end. */
  function NextLine(s: string, n: nat): (next: nat)
    requires n < |s|
    ensures n < next <= |s|
  {
    if s[n] == '\r' && n + 1 < |s| && s[n + 1] == '\n' then n + 2 else n + 1
  }

  function SplitLines(s: string): seq<string>
    decreases |s|
  {
    if s == "" then []
    else
      var n := LineLength(s);
      if n == |s| then [s] else [s[..n]] + SplitLines(s[NextLine(s, n)..])
  }

  predicate Unbroken(s: string) {
    forall i | 0 <= i < |s| :: !IsBreak(s[i])
  }

  function JoinLines(lines: seq<string>): string {
    if lines == [] then "" else if |lines| == 1 then lines[0] else lines[0] + ("\n" + JoinLines(lines[1..]))
  }

  lemma {:induction false} LinesAreUnbroken(s: string)
    ensures forall line | line in SplitLines(s) :: Unbroken(line)
    decreases |s|
  {
    var n := LineLength(s);
    if n < |s| {
      var rest := s[NextLine(s, n)..];
      LinesAreUnbroken(rest);
      assert SplitLines(s) == [s[..n]] + SplitLines(rest);
      assert Unbroken(s[..n]);
    }
  }

  lemma {:induction false} FirstBreak(line: string, rest: string)
    requires Unbroken(line) && (rest == "" || IsBreak(rest[0]))
    ensures LineLength(line + rest) == |line|
  {
    if line == "" {
      assert line + rest == rest;
    } else {
      assert (line + rest)[1..] == line[1..] + rest;
      FirstBreak(line[1..], rest);
    }
  }

  lemma OneLineOff(line: string, rest: string)
    requires Unbroken(line)
    ensures SplitLines(line + ("\n" + rest)) == [line] + SplitLines(rest)
  {
    var s := line + ("\n" + rest);
    FirstBreak(line, "\n" + rest);
    assert s[..|line|] == line && s[|line| + 1..] == rest;
  }

  lemma {:induction false} UnbrokenAreSplit(lines: seq<string>)
    requires forall i | 0 <= i < |lines| :: lines[i] != "" && Unbroken(lines[i])
    ensures SplitLines(JoinLines(lines)) == lines
  {
    if |lines| == 1 {
      FirstBreak(lines[0], "");
      assert lines[0] + "" == lines[0];
    } else if |lines| > 1 {
      UnbrokenAreSplit(lines[1..]);
      OneLineOff(lines[0], JoinLines(lines[1..]));
      assert lines == [lines[0]] + lines[1..];
    }
  }

  /** Lines joined by line feeds are split back into the same lines exactly when none of them holds
      a line end of its own. */
  lemma JoinedIsSplit(lines: seq<string>)
    requires forall line | line in lines :: line != ""
    ensures SplitLines(JoinLines(lines)) == lines <==> forall line | line in lines :: Unbroken(line)
  {
    LinesAreUnbroken(JoinLines(lines));
    if forall line | line in lines :: Unbroken(line) {
      assert forall i | 0 <= i < |lines| :: lines[i] in lines;
      UnbrokenAreSplit(lines);
    }
  }

  lemma UnbrokenParts(a: string, b: string)
    ensures Unbroken(a + b) <==> Unbroken(a) && Unbroken(b)
  {
    if Unbroken(a + b) {
      forall i | 0 <= i < |a| ensures !IsBreak(a[i]) {
        assert (a + b)[i] == a[i];
      }
      forall i | 0 <= i < |b| ensures !IsBreak(b[i]) {
        assert (a + b)[|a| + i] == b[i];
      }
    }
  }

  /** The one line end the format escapes is the line feed. */
  predicate Unbreakable(value: string) {
    forall i | 0 <= i < |value| :: IsBreak(value[i]) ==> value[i] == '\n'
  }

  lemma {:induction false} EscapedBreaks(value: string)
    ensures Unbroken(Escape(value)) <==> Unbreakable(value)
  {
    if value != "" {
      EscapedBreaks(value[1..]);
      UnbrokenParts(EscapeChar(value[0]), Escape(value[1..]));
      assert Unbroken(EscapeChar(value[0])) <==> !IsBreak(value[0]) || value[0] == '\n' by {
        assert EscapeChar(value[0])[0] == value[0] || EscapeChar(value[0])[0] == '\\';
      }
      assert value == [value[0]] + value[1..];
    }
  }

  lemma NameIsUnbroken(name: string)
    requires IsLabelName(name) || IsMetricName(name)
    ensures Unbroken(name)
  {
  }

  lemma LabelBreaks(name: string, value: string, rest: string)
    requires IsLabelName(name)
    ensures Unbroken(name + "=\"" + Escape(value) + "\"" + rest) <==> Unbreakable(value) && Unbroken(rest)
  {
    NameIsUnbroken(name);
    EscapedBreaks(value);
    UnbrokenParts(name, "=\"");
    UnbrokenParts(name + "=\"", Escape(value));
    UnbrokenParts(name + "=\"" + Escape(value), "\"");
    UnbrokenParts(name + "=\"" + Escape(value) + "\"", rest);
  }

  lemma {:induction false} WrittenBreaks(pairs: Pairs)
    requires LegalNames(pairs)
    ensures Unbroken(Write(pairs)) <==> forall p | p in pairs :: Unbreakable(p.1)
  {
    if pairs != [] {
      var rest := pairs[1..];
      assert pairs == [pairs[0]] + rest;
      assert forall p :: p in pairs <==> p == pairs[0] || p in rest;
      WrittenBreaks(rest);
      UnbrokenParts(",", Write(rest));
      LabelBreaks(pairs[0].0, pairs[0].1, Rest(pairs));
    }
  }

  lemma WordIsUnbroken(s: string)
    requires IsWord(s)
    ensures Unbroken(s)
  {
    forall i | 0 <= i < |s| ensures !IsBreak(s[i]) {
      assert !IsSpace(s[i]);
    }
  }

  // ----- Written payloads -----

  /** A sample as it is written. */
  datatype Written = Written(name: string, pairs: Pairs, value: string, stamp: Option<string>) {
    predicate Legal() {
      IsMetricName(name) && IsWord(value) && (stamp.Some? ==> IsWord(stamp.value)) && LegalNames(pairs)
    }

    function Line(): string {
      name + "{" + Write(pairs) + "}" + WriteReading(value, stamp)
    }
  }

  lemma ReadingIsUnbroken(value: string, stamp: Option<string>)
    requires IsWord(value) && (stamp.Some? ==> IsWord(stamp.value))
    ensures Unbroken(WriteReading(value, stamp))
  {
    WordIsUnbroken(value);
    UnbrokenParts(" ", value);
    if stamp.Some? {
      WordIsUnbroken(stamp.value);
      UnbrokenParts(" ", stamp.value);
    }
    UnbrokenParts(" " + value, if stamp.Some? then " " + stamp.value else "");
  }

  lemma LineBreaks(w: Written)
    requires w.Legal()
    ensures w.Line() != "" && (Unbroken(w.Line()) <==> forall p | p in w.pairs :: Unbreakable(p.1))
  {
    var reading := WriteReading(w.value, w.stamp);
    NameIsUnbroken(w.name);
    ReadingIsUnbroken(w.value, w.stamp);
    WrittenBreaks(w.pairs);
    UnbrokenParts(w.name, "{");
    UnbrokenParts(w.name + "{", Write(w.pairs));
    UnbrokenParts(w.name + "{" + Write(w.pairs), "}");
    UnbrokenParts(w.name + "{" + Write(w.pairs) + "}", reading);
  }

  function WriteLines(ws: seq<Written>): (lines: seq<string>)
    ensures |lines| == |ws| && forall i | 0 <= i < |ws| :: lines[i] == ws[i].Line()
  {
    seq(|ws|, i requires 0 <= i < |ws| => ws[i].Line())
  }

  /** Any samples, written one to a line, are cut back into exactly those lines just when no label
      value holds a line end other than the line feed, which the format escapes. */
  lemma PayloadIsSplit(ws: seq<Written>)
    requires forall w | w in ws :: w.Legal()
    ensures SplitLines(JoinLines(WriteLines(ws))) == WriteLines(ws) <==>
            forall w, p | w in ws && p in w.pairs :: Unbreakable(p.1)
  {
    var lines := WriteLines(ws);
    forall i | 0 <= i < |ws|
      ensures lines[i] != "" && (Unbroken(lines[i]) <==> forall p | p in ws[i].pairs :: Unbreakable(p.1))
    {
      assert ws[i] in ws;
      LineBreaks(ws[i]);
    }
    JoinedIsSplit(lines);
    if forall line | line in lines :: Unbroken(line) {
      forall w, p | w in ws && p in w.pairs ensures Unbreakable(p.1) {
        var i :| 0 <= i < |ws| && ws[i] == w;
        assert lines[i] in lines;
      }
    }
    if forall w, p | w in ws && p in w.pairs :: Unbreakable(p.1) {
      forall line | line in lines ensures Unbroken(line) {
        var i :| 0 <= i < |lines| && lines[i] == line;
        assert ws[i] in ws;
      }
    }
  }

  // ----- A line that is cut -----

  /** The closing brace of written labels is the one behind them, whatever the values hold. */
  lemma {:induction false} WrittenBrace(pairs: Pairs, after: string)
    requires LegalNames(pairs) && after != "" && after[0] == '}'
    ensures ClosingBrace(Write(pairs) + after, false, false) == Some(|Write(pairs)|)
    decreases |pairs|, 1
  {
    if pairs == [] {
      assert "" + after == after;
    } else {
      var (name, value) := pairs[0];
      var rest := Rest(pairs);
      assert pairs[0] in pairs;
      LabelReadBack(name, value, rest);
      assert Write(pairs) == name + "=\"" + Escape(value) + "\"" + rest;
      ScanLabel(Write(pairs), after);
      BraceBehindFirst(pairs, after);
    }
  }

  lemma ScanComma(text: string)
    ensures ClosingBrace("," + text, false, false) == Later(1, ClosingBrace(text, false, false))
  {
    assert ("," + text)[1..] == text;
  }

  lemma {:induction false} BraceBehindFirst(pairs: Pairs, after: string)
    requires LegalNames(pairs) && pairs != [] && after != "" && after[0] == '}'
    ensures ClosingBrace(Rest(pairs) + after, false, false) == Some(|Rest(pairs)|)
    decreases |pairs|, 0
  {
    if |pairs| == 1 {
      assert "" + after == after;
    } else {
      var text := Write(pairs[1..]);
      assert forall p | p in pairs[1..] :: p in pairs;
      WrittenBrace(pairs[1..], after);
      ScanComma(text + after);
      CommaApart(text, after);
      assert Rest(pairs) == "," + text;
    }
  }

  lemma CommaApart(text: string, after: string)
    ensures ("," + text) + after == "," + (text + after)
  {
  }

  /** A text cut off before its closing brace has none. */
  lemma {:induction false} NoBraceBefore(s: string, n: nat, quoted: bool, escaped: bool)
    requires n <= |s| && (ClosingBrace(s, quoted, escaped).Some? ==> n <= ClosingBrace(s, quoted, escaped).value)
    ensures ClosingBrace(s[..n], quoted, escaped).None?
  {
    if n > 0 {
      assert s[..n][1..] == s[1..][..n - 1];
      if escaped {
        NoBraceBefore(s[1..], n - 1, quoted, false);
      } else if s[0] == '\\' && quoted {
        NoBraceBefore(s[1..], n - 1, quoted, true);
      } else if s[0] == '"' {
        NoBraceBefore(s[1..], n - 1, !quoted, false);
      } else {
        NoBraceBefore(s[1..], n - 1, quoted, false);
      }
    }
  }

  lemma {:induction false} TrimmedIsPrefix(s: string, k: nat) returns (m: nat)
    requires k < |s| && !IsSpace(s[k])
    ensures k < m <= |s| && TrimRight(s) == s[..m]
  {
    if IsSpace(s[|s| - 1]) {
      m := TrimmedIsPrefix(s[..|s| - 1], k);
      assert s[..|s| - 1][..m] == s[..m];
    } else {
      m := |s|;
    }
  }

  /** The start of a line, up to somewhere in its labels. */
  function Head(name: string, text: string): string {
    name + "{" + text
  }

  lemma HeadOfHead(name: string, text: string, m: nat)
    requires |name| < m <= |Head(name, text)|
    ensures Head(name, text)[..m] == Head(name, text[..m - |name| - 1])
  {
  }

  lemma HeadOfLine(w: Written, n: nat)
    requires |w.name| < n <= |w.name| + 1 + |Write(w.pairs)|
    ensures w.Line()[..n] == Head(w.name, Write(w.pairs)[..n - |w.name| - 1])
  {
    assert w.Line() == Head(w.name, Write(w.pairs)) + ("}" + WriteReading(w.value, w.stamp));
    HeadOfHead(w.name, Write(w.pairs), n);
  }

  lemma LabelsCutShort(pairs: Pairs, n: nat)
    requires LegalNames(pairs) && n <= |Write(pairs)|
    ensures ClosingBrace(Write(pairs)[..n], false, false).None?
  {
    var text := Write(pairs);
    WrittenBrace(pairs, "}");
    NoBraceBefore(text + "}", n, false, false);
    assert (text + "}")[..n] == text[..n];
  }

  /** A line cut between its two braces does not read as a sample of a known metric. */
  lemma HeadIsRefused(v: Vocabulary, read: string -> Option<real>, d: Draft, name: string, text: string)
    requires Consistent(v) && IsMetricName(name) && name in v.samples && ClosingBrace(text, false, false).None?
    ensures ReadMetric(v, read, d, Head(name, text)).Err?
  {
    NameIsCut(name, text);
    assert ReadSample(Head(name, text)).Err?;
  }

  lemma TrimmedHead(name: string, text: string) returns (n: nat)
    requires IsMetricName(name)
    ensures n <= |text| && TrimRight(TrimLeft(Head(name, text))) == Head(name, text[..n])
  {
    var head := Head(name, text);
    assert head[0] == name[0] && head[|name|] == '{';
    assert TrimLeft(head) == head;
    var m := TrimmedIsPrefix(head, |name|);
    HeadOfHead(name, text, m);
    n := m - |name| - 1;
  }

  lemma CutHeadRefused(v: Vocabulary, read: string -> Option<real>, d: Draft, name: string, pairs: Pairs, k: nat)
    requires Consistent(v) && IsMetricName(name) && name in v.samples && LegalNames(pairs) && k <= |Write(pairs)|
    ensures ReadLine(v, read, d, Head(name, Write(pairs)[..k])).Err?
  {
    var text := Write(pairs)[..k];
    var m := TrimmedHead(name, text);
    assert text[..m] == Write(pairs)[..m];
    LabelsCutShort(pairs, m);
    HeadIsRefused(v, read, d, name, text[..m]);
    MetricLineRefused(v, read, d, Head(name, text), Head(name, text[..m]));
  }

  /** Whatever has been read before, a line of a known metric is refused when it is cut there. */
  lemma CutIsRefused(v: Vocabulary, read: string -> Option<real>, d: Draft, w: Written, n: nat)
    requires Consistent(v) && w.Legal() && w.name in v.samples && |w.name| < n <= |w.name| + 1 + |Write(w.pairs)|
    ensures ReadLine(v, read, d, w.Line()[..n]).Err?
  {
    HeadOfLine(w, n);
    CutHeadRefused(v, read, d, w.name, w.pairs, n - |w.name| - 1);
  }

  lemma MetricLineRefused(v: Vocabulary, read: string -> Option<real>, d: Draft, line: string, trimmed: string)
    requires Consistent(v) && TrimRight(TrimLeft(line)) == trimmed
    requires trimmed != "" && trimmed[0] != '#' && ReadMetric(v, read, d, trimmed).Err?
    ensures ReadLine(v, read, d, line).Err?
  {
  }

  /** A broken line breaks inside its labels. */
  lemma BreakIsInLabels(w: Written, p: (string, string))
    requires w.Legal() && p in w.pairs && !Unbreakable(p.1)
    ensures |w.name| < LineLength(w.Line()) <= |w.name| + 1 + |Write(w.pairs)|
    ensures SplitLines(w.Line()) != [] && SplitLines(w.Line())[0] == w.Line()[..LineLength(w.Line())]
  {
    var line, text, start := w.Line(), Write(w.pairs), |w.name| + 1;
    WrittenBreaks(w.pairs);
    var i :| 0 <= i < |text| && IsBreak(text[i]);
    assert line[start + i] == text[i];
    NameIsUnbroken(w.name);
    forall k | 0 <= k <= |w.name| ensures !IsBreak(line[k]) {
      assert line[k] == if k < |w.name| then w.name[k] else '{';
    }
  }

  // ----- The lines of several samples -----

  predicate EndsInText(s: string) {
    s != "" && !IsBreak(s[|s| - 1])
  }

  lemma {:induction false} LineLengthStays(a: string, t: string)
    requires LineLength(a) < |a|
    ensures LineLength(a + t) == LineLength(a)
  {
    if !IsBreak(a[0]) {
      assert (a + t)[1..] == a[1..] + t;
      LineLengthStays(a[1..], t);
    }
  }

  lemma SameNext(a: string, t: string, n: nat)
    requires EndsInText(a) && n < |a| && IsBreak(a[n])
    ensures NextLine(a + t, n) == NextLine(a, n) < |a|
  {
    assert n + 1 < |a|;
    assert (a + t)[n] == a[n] && (a + t)[n + 1] == a[n + 1];
  }

  lemma SliceApart(a: string, t: string, k: nat)
    requires k <= |a|
    ensures (a + t)[..k] == a[..k] && (a + t)[k..] == a[k..] + t
  {
  }

  /** Text that does not end in a line end is split apart from what follows in a new line. */
  lemma {:induction false} SplitApart(a: string, b: string)
    requires EndsInText(a)
    ensures SplitLines(a + ("\n" + b)) == SplitLines(a) + SplitLines(b)
    decreases |a|
  {
    var n, t := LineLength(a), "\n" + b;
    if n == |a| {
      OneLineOff(a, b);
    } else {
      var next := NextLine(a, n);
      LineLengthStays(a, t);
      SameNext(a, t, n);
      SliceApart(a, t, n);
      SliceApart(a, t, next);
      SplitApart(a[next..], b);
      assert SplitLines(a + t) == [a[..n]] + (SplitLines(a[next..]) + SplitLines(b));
    }
  }

  lemma LineEndsInWord(w: Written)
    requires w.Legal()
    ensures EndsInText(w.Line())
  {
    var reading := WriteReading(w.value, w.stamp);
    ReadingIsUnbroken(w.value, w.stamp);
    assert w.Line()[|w.Line()| - 1] == reading[|reading| - 1];
  }

  lemma FirstLineOff(lines: seq<string>)
    requires |lines| > 1 && EndsInText(lines[0])
    ensures SplitLines(JoinLines(lines)) == SplitLines(lines[0]) + SplitLines(JoinLines(lines[1..]))
  {
    SplitApart(lines[0], JoinLines(lines[1..]));
  }

  lemma {:induction false} PiecesStay(lines: seq<string>, i: nat, piece: string)
    requires i < |lines| && forall k | 0 <= k < |lines| :: EndsInText(lines[k])
    requires piece in SplitLines(lines[i])
    ensures piece in SplitLines(JoinLines(lines))
  {
    if |lines| > 1 {
      FirstLineOff(lines);
      if i > 0 {
        assert lines[1..][i - 1] == lines[i];
        PiecesStay(lines[1..], i - 1, piece);
      }
    }
  }

  lemma {:induction false} OneBadLine(v: Vocabulary, read: string -> Option<real>, lines: seq<string>, bad: string)
    requires Consistent(v) && bad in lines && forall d :: ReadLine(v, read, d, bad).Err?
    ensures ReadLines(v, read, lines).Err?
  {
    var n := |lines| - 1;
    if lines[n] != bad {
      assert lines == lines[..n] + [lines[n]];
      OneBadLine(v, read, lines[..n], bad);
    }
  }

  /** One label value of a known metric with a line end other than the line feed, anywhere in a
      payload of written samples, and the whole payload is refused. */
  lemma BrokenPayloadIsRefused(v: Vocabulary, read: string -> Option<real>, ws: seq<Written>, w: Written,
                               p: (string, string))
    requires Consistent(v) && (forall x | x in ws :: x.Legal())
    requires w in ws && w.name in v.samples && p in w.pairs && !Unbreakable(p.1)
    ensures ReadLines(v, read, SplitLines(JoinLines(WriteLines(ws)))).Err?
  {
    var lines := WriteLines(ws);
    var i :| 0 <= i < |ws| && ws[i] == w;
    forall k | 0 <= k < |lines| ensures EndsInText(lines[k]) {
      assert ws[k] in ws;
      LineEndsInWord(ws[k]);
    }
    BreakIsInLabels(w, p);
    var piece := SplitLines(w.Line())[0];
    PiecesStay(lines, i, piece);
    forall d ensures ReadLine(v, read, d, piece).Err? {
      CutIsRefused(v, read, d, w, LineLength(w.Line()));
    }
    OneBadLine(v, read, SplitLines(JoinLines(lines)), piece);
  }

  // ----- A line of an unknown metric -----

  lemma {:induction false} FewBytes(s: string)
    ensures Bytes(s) <= 4 * |s|
  {
    if s != "" {
      FewBytes(s[..|s| - 1]);
    }
  }

  lemma UnknownLine(v: Vocabulary, read: string -> Option<real>, d: Draft, name: string, rest: string)
    requires Consistent(v) && IsMetricName(name) && name !in v.samples && |d.unknown + {name}| <= MAX_UNKNOWN_METRICS
    requires 0 < |rest| <= 100 && !InMetric(rest[0]) && !IsSpace(rest[|rest| - 1])
    ensures ReadLine(v, read, d, name + rest) == Ok(d.(unknown := d.unknown + {name}))
  {
    var line := name + rest;
    FewBytes(line);
    assert line[0] == name[0] && line[|line| - 1] == rest[|rest| - 1];
    MetricReadBack(name, rest);
    assert line[..|name|] == name;
  }

  lemma {:induction false} NothingToEscape(s: string)
    requires forall i | 0 <= i < |s| :: s[i] !in {'\\', '"', '\n'}
    ensures Escape(s) == s
  {
    if s != "" {
      NothingToEscape(s[1..]);
      assert s == [s[0]] + s[1..];
    }
  }

  lemma ReturnCuts(head: string, rest: string)
    requires Unbroken(head) && Unbroken(rest) && rest != ""
    ensures SplitLines(head + ("\r" + rest)) == [head, rest]
  {
    var line := head + ("\r" + rest);
    FirstBreak(head, "\r" + rest);
    assert line[|head|] == '\r' && line[|head| + 1] == rest[0];
    assert line[..|head|] == head && line[|head| + 1..] == rest;
    FirstBreak(rest, "");
    assert rest + "" == rest;
  }

  /** A sample of this name with a label value that starts a new line with another name. */
  function Smuggled(name: string, other: string): Written {
    Written(name, [("a", "\r" + other)], "1", None)
  }

  lemma AroundReturn(name: string, text: string)
    ensures name + "{" + ("a=\"" + text + "\"") + "}" + " 1" == (name + "{a=\"") + (text + "\"} 1")
  {
    var head := name + "{a=\"";
    assert name + "{" + ("a=\"" + text + "\"") == head + (text + "\"");
    assert head + (text + "\"") + "}" == head + (text + "\"}");
    assert head + (text + "\"}") + " 1" == head + (text + "\"} 1");
  }

  lemma OneLabelText(tag: string, value: string)
    ensures Write([(tag, value)]) == tag + "=\"" + Escape(value) + "\""
  {
  }

  lemma SmuggledText(name: string, other: string)
    requires IsMetricName(other)
    ensures Smuggled(name, other).Line() == (name + "{a=\"") + ("\r" + (other + "\"} 1"))
  {
    var text := "\r" + other;
    NothingToEscape(text);
    OneLabelText("a", text);
    assert "a" + "=\"" == "a=\"";
    assert WriteReading("1", None) == " 1";
    AroundReturn(name, text);
    assert text + "\"} 1" == "\r" + (other + "\"} 1");
  }

  lemma SmuggledLine(name: string, other: string)
    requires IsMetricName(name) && IsMetricName(other)
    ensures Smuggled(name, other).Legal()
    ensures SplitLines(Smuggled(name, other).Line()) == [name + "{a=\"", other + "\"} 1"]
  {
    SmuggledText(name, other);
    NameIsUnbroken(name);
    NameIsUnbroken(other);
    UnbrokenParts(name, "{a=\"");
    UnbrokenParts(other, "\"} 1");
    ReturnCuts(name + "{a=\"", other + "\"} 1");
  }

  /** With metrics outside the vocabulary nothing is refused: such a sample is taken for two metrics,
      of which the second never was. */
  lemma UnknownMetricIsMadeUp(v: Vocabulary, read: string -> Option<real>, name: string, other: string)
    requires Consistent(v) && IsMetricName(name) && IsMetricName(other) && name !in v.samples && other !in v.samples
    ensures var w := Smuggled(name, other);
            && w.Legal() && w.name == name
            && ReadLines(v, read, SplitLines(w.Line())) == Ok(BLANK.(unknown := {name, other}))
  {
    var head, rest := name + "{a=\"", other + "\"} 1";
    var lines := [head, rest];
    SmuggledLine(name, other);
    assert lines[..1] == [head] && lines[..1][..0] == [];
    UnknownLine(v, read, BLANK, name, "{a=\"");
    UnknownLine(v, read, BLANK.(unknown := {name}), other, "\"} 1");
    assert {name} + {other} == {name, other};
    assert ReadLines(v, read, [head]) == Ok(BLANK.(unknown := {name}));
  }
}
