/**
 CPU sets as text (`cpus` and `cpu_text` in scripts/lib/cpu_isolation.py): lists of numbers and
 ranges, read into sets, and sets written back as lists of numbers.
 */
module CpuSets {
  import opened Prelude
  import opened Sorting

  const LAST_CPU := 4095

  // ----- Numbers -----

  predicate IsNumber(s: string) {
    s != "" && forall i | 0 <= i < |s| :: IsDigit(s[i])
  }

  function Decimal(n: nat): (s: string)
    ensures IsNumber(s)
  {
    var digit := '0' + (n % 10) as char;
    if n < 10 then [digit] else Decimal(n / 10) + [digit]
  }

  lemma {:induction false} DecimalReadBack(n: nat)
    ensures DecimalValue(Decimal(n)) == n
  {
    var s := Decimal(n);
    if n < 10 {
      assert s[..|s| - 1] == "";
    } else {
      DecimalReadBack(n / 10);
      assert s[..|s| - 1] == Decimal(n / 10);
    }
  }

  // ----- Splitting and joining -----

  function UpTo(s: string, mark: char): (n: nat)
    ensures n <= |s| && (n < |s| ==> s[n] == mark) && mark !in s[..n]
  {
    if s == "" || s[0] == mark then 0
    else
      var n := UpTo(s[1..], mark);
      assert s[..n + 1] == [s[0]] + s[1..][..n];
      n + 1
  }

  function Split(s: string, mark: char): (parts: seq<string>)
    ensures parts != []
    decreases |s|
  {
    var n := UpTo(s, mark);
    if n == |s| then [s] else [s[..n]] + Split(s[n + 1..], mark)
  }

  function Join(parts: seq<string>, mark: char): string {
    if parts == [] then "" else if |parts| == 1 then parts[0] else parts[0] + [mark] + Join(parts[1..], mark)
  }

  lemma {:induction false} UpToMark(s: string, mark: char, rest: string)
    requires mark !in s && (rest == "" || rest[0] == mark)
    ensures UpTo(s + rest, mark) == |s|
  {
    if s == "" {
      assert s + rest == rest;
    } else {
      assert (s + rest)[1..] == s[1..] + rest;
      UpToMark(s[1..], mark, rest);
    }
  }

  lemma {:induction false} SplitJoin(parts: seq<string>, mark: char)
    requires parts != [] && forall p | p in parts :: mark !in p
    ensures Split(Join(parts, mark), mark) == parts
  {
    assert parts[0] in parts;
    if |parts| == 1 {
      UpToMark(parts[0], mark, "");
      assert parts[0] + "" == parts[0];
    } else {
      var rest := [mark] + Join(parts[1..], mark);
      UpToMark(parts[0], mark, rest);
      assert Join(parts, mark) == parts[0] + rest;
      assert (parts[0] + rest)[|parts[0]| + 1..] == Join(parts[1..], mark);
      assert forall p | p in parts[1..] :: p in parts;
      SplitJoin(parts[1..], mark);
      assert parts == [parts[0]] + parts[1..];
    }
  }

  // ----- Reading a set -----

  /** A part is a number or two numbers with a dash. */
  function ReadPart(part: string): Option<(nat, nat)> {
    var ends := Split(part, '-');
    if |ends| > 2 || !IsNumber(ends[0]) || !IsNumber(ends[|ends| - 1]) then None
    else Some((DecimalValue(ends[0]), DecimalValue(ends[|ends| - 1])))
  }

  function Range(first: nat, last: nat): (r: seq<nat>)
    ensures |r| == if first <= last then last - first + 1 else 0
    ensures forall i | 0 <= i < |r| :: r[i] == first + i
  {
    seq(if first <= last then last - first + 1 else 0, i => first + i)
  }

  /** The numbers a list of parts names, in order. */
  function Expand(parts: seq<string>): Option<seq<nat>> {
    if parts == [] then Some([])
    else
      var front := Expand(parts[..|parts| - 1]);
      var pair := ReadPart(parts[|parts| - 1]);
      if front.None? || pair.None? || !(pair.value.0 <= pair.value.1 <= LAST_CPU) then None
      else Some(front.value + Range(pair.value.0, pair.value.1))
  }

  predicate Distinct(values: seq<nat>) {
    forall i, j | 0 <= i < j < |values| :: values[i] != values[j]
  }

  function Elements(values: seq<nat>): set<nat> {
    set x | x in values
  }

  /** What a CPU set text means: none when it is malformed, out of range or repeats a CPU. */
  function CpusOf(text: string): Option<set<nat>> {
    var values := Expand(Split(text, ','));
    if values.None? || !Distinct(values.value) then None else Some(Elements(values.value))
  }

  lemma {:induction false} DistinctCount(values: seq<nat>)
    ensures |Elements(values)| <= |values|
    ensures |Elements(values)| == |values| <==> Distinct(values)
  {
    if values != [] {
      var n := |values| - 1;
      var front, last := values[..n], values[n];
      DistinctCount(front);
      assert values == front + [last];
      assert Elements(values) == Elements(front) + {last};
      if last in Elements(front) {
        assert Elements(values) == Elements(front);
        var i :| 0 <= i < n && front[i] == last;
        assert values[i] == values[n];
      } else if Distinct(front) {
        forall i | 0 <= i < n ensures values[i] != last {
          assert front[i] in Elements(front);
        }
      }
    }
  }

  lemma {:induction false} ExpandFails(parts: seq<string>, n: nat)
    requires n <= |parts| && Expand(parts[..n]).None?
    ensures Expand(parts).None?
  {
    if n == |parts| {
      assert parts[..n] == parts;
    } else {
      assert parts[..|parts| - 1][..n] == parts[..n];
      ExpandFails(parts[..|parts| - 1], n);
    }
  }

  lemma AllRead(text: string, values: seq<nat>)
    requires Expand(Split(text, ',')) == Some(values)
    ensures CpusOf(text) == if |values| == |Elements(values)| then Some(Elements(values)) else None
  {
    DistinctCount(values);
  }

  lemma OnePartMore(parts: seq<string>, i: nat)
    requires i < |parts|
    ensures Expand(parts[..i + 1]) ==
            var front, pair := Expand(parts[..i]), ReadPart(parts[i]);
            if front.None? || pair.None? || !(pair.value.0 <= pair.value.1 <= LAST_CPU) then None
            else Some(front.value + Range(pair.value.0, pair.value.1))
  {
    assert parts[..i + 1][..i] == parts[..i];
  }

  method ParseCpus(text: string) returns (r: Option<set<nat>>)
    ensures r == CpusOf(text)
  {
    var parts := Split(text, ',');
    var values: seq<nat> := [];
    for i := 0 to |parts|
      invariant Expand(parts[..i]) == Some(values)
    {
      OnePartMore(parts, i);
      var pair := ReadPart(parts[i]);
      if pair.None? || !(pair.value.0 <= pair.value.1 <= LAST_CPU) {
        ExpandFails(parts, i + 1);
        return None;
      }
      values := values + Range(pair.value.0, pair.value.1);
    }
    assert parts[..|parts|] == parts;
    AllRead(text, values);
    if |values| != |Elements(values)| {
      return None;
    }
    r := Some(Elements(values));
  }

  // ----- Writing a set -----

  predicate Increasing(values: seq<int>) {
    forall i, j | 0 <= i < j < |values| :: values[i] < values[j]
  }

  predicate InRange(values: seq<nat>) {
    forall i | 0 <= i < |values| :: values[i] <= LAST_CPU
  }

  function Decimals(values: seq<nat>): (r: seq<string>)
    ensures |r| == |values| && forall i | 0 <= i < |r| :: r[i] == Decimal(values[i])
  {
    seq(|values|, i requires 0 <= i < |values| => Decimal(values[i]))
  }

  function ListText(values: seq<nat>): string
  {
    Join(Decimals(values), ',')
  }

  lemma NumberIsPart(n: nat)
    ensures ReadPart(Decimal(n)) == Some((n, n))
    ensures ',' !in Decimal(n)
  {
    DecimalReadBack(n);
    UpToMark(Decimal(n), '-', "");
    assert Decimal(n) + "" == Decimal(n);
  }

  lemma {:induction false} ExpandDecimals(values: seq<nat>)
    requires InRange(values)
    ensures Expand(Decimals(values)) == Some(values)
  {
    if values != [] {
      var n := |values| - 1;
      assert values == values[..n] + [values[n]];
      ExpandDecimals(values[..n]);
      assert Decimals(values)[..n] == Decimals(values[..n]);
      NumberIsPart(values[n]);
      assert Range(values[n], values[n]) == [values[n]];
    }
  }

  /** A list of distinct CPUs, written and read, is the set of them. */
  lemma ListReadBack(values: seq<nat>)
    requires values != [] && Distinct(values) && InRange(values)
    ensures CpusOf(ListText(values)) == Some(Elements(values))
  {
    forall p | p in Decimals(values) ensures ',' !in p {
      var i :| 0 <= i < |values| && p == Decimal(values[i]);
      NumberIsPart(values[i]);
    }
    SplitJoin(Decimals(values), ',');
    ExpandDecimals(values);
  }

  /** Writes a set in increasing order; reading the text gives the set again. */
  method CpuText(s: set<nat>) returns (r: Option<string>)
    ensures r.None? <==> s == {}
    ensures r.Some? && (forall x | x in s :: x <= LAST_CPU) ==> CpusOf(r.value) == Some(s)
    ensures r.Some? ==> exists values: seq<nat> ::
              Increasing(values) && Elements(values) == s && r.value == ListText(values)
  {
    var values := Sort(s, (x: nat) => x as real);
    if s == {} {
      return None;
    }
    assert forall x: nat :: x in values <==> x in s;
    assert Elements(values) == s;
    assert values != [] by {
      var x :| x in s;
      assert x in values;
    }
    if forall x | x in s :: x <= LAST_CPU {
      forall i | 0 <= i < |values| ensures values[i] <= LAST_CPU {
        assert values[i] in values && values[i] in s;
      }
      ListReadBack(values);
    }
    r := Some(ListText(values));
  }
}
