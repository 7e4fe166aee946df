/**
 The record names of scripts/lib/observation_spool.py (`record_name`, the pattern RECORD): a key
 can be read back from its name, and names sort as keys do because every part has a fixed width.
 */
module SpoolNames {
  import opened Prelude

  const MAX_SEQUENCE := 9007199254740991

  /** An epoch is a UUID in its canonical text form. */
  datatype Key = Key(epoch: string, sequence: int)

  // ----- Texts -----

  predicate IsHex(c: char) {
    IsDigit(c) || 'a' <= c <= 'f'
  }

  predicate DashAt(i: nat) {
    i == 8 || i == 13 || i == 18 || i == 23
  }

  predicate IsEpoch(s: string) {
    |s| == 36 && forall i | 0 <= i < 36 :: if DashAt(i) then s[i] == '-' else IsHex(s[i])
  }

  function Compact(s: string): string
    requires |s| == 36
  {
    s[..8] + s[9..13] + s[14..18] + s[19..23] + s[24..]
  }

  function Dashed(h: string): string
    requires |h| == 32
  {
    h[..8] + "-" + h[8..12] + "-" + h[12..16] + "-" + h[16..20] + "-" + h[20..]
  }

  function Digit(n: int): char
    requires 0 <= n < 10
  {
    '0' + n as char
  }

  /** The last digits of a number, with leading zeros. */
  function Padded(n: nat, width: nat): (s: string)
    ensures |s| == width && forall i | 0 <= i < width :: IsDigit(s[i])
  {
    if width == 0 then "" else Padded(n / 10, width - 1) + [Digit(n % 10)]
  }

  function TenTo(n: nat): nat {
    if n == 0 then 1 else 10 * TenTo(n - 1)
  }

  // ----- Names -----

  predicate IsKey(k: Key) {
    IsEpoch(k.epoch) && 0 <= k.sequence <= MAX_SEQUENCE
  }

  function Name(k: Key): (s: string)
    requires IsKey(k)
    ensures |s| == 61
  {
    "sample-" + Compact(k.epoch) + "-" + Padded(k.sequence, 16) + ".json"
  }

  /** The pattern the store lists its records by. */
  predicate IsRecordName(s: string) {
    && |s| == 61 && s[..7] == "sample-" && s[39] == '-' && s[56..] == ".json"
    && (forall i | 7 <= i < 39 :: IsHex(s[i])) && (forall i | 40 <= i < 56 :: IsDigit(s[i]))
  }

  function KeyOf(s: string): Key
    requires IsRecordName(s)
  {
    Key(Dashed(s[7..39]), DecimalValue(s[40..56]))
  }

  lemma CompactParts(s: string)
    requires |s| == 36
    ensures var h := Compact(s);
            && |h| == 32 && h[..8] == s[..8] && h[8..12] == s[9..13] && h[12..16] == s[14..18]
            && h[16..20] == s[19..23] && h[20..] == s[24..]
  {
    var a := s[..8] + s[9..13];
    var b := a + s[14..18];
    var c := b + s[19..23];
    var h := c + s[24..];
    assert |a| == 12 && |b| == 16 && |c| == 20;
    assert h[..20] == c && h[..16] == b && h[..12] == a;
    assert h[..8] == s[..8] && h[8..12] == s[9..13];
    assert h[12..16] == s[14..18];
    assert h[16..20] == s[19..23];
    assert h[20..] == s[24..];
  }

  lemma CompactBack(s: string)
    requires IsEpoch(s)
    ensures Dashed(Compact(s)) == s
  {
    CompactParts(s);
    assert s[8] == '-' && s[13] == '-' && s[18] == '-' && s[23] == '-';
    assert s[..13] == s[..8] + "-" + s[9..13];
    assert s[..18] == s[..13] + "-" + s[14..18];
    assert s[..23] == s[..18] + "-" + s[19..23];
    assert s == s[..23] + "-" + s[24..];
  }

  lemma DashedParts(h: string)
    requires |h| == 32
    ensures var s := Dashed(h);
            && |s| == 36 && s[8] == '-' && s[13] == '-' && s[18] == '-' && s[23] == '-'
            && s[..8] == h[..8] && s[9..13] == h[8..12] && s[14..18] == h[12..16] && s[19..23] == h[16..20]
            && s[24..] == h[20..]
  {
    var a := h[..8] + "-" + h[8..12];
    var b := a + "-" + h[12..16];
    var c := b + "-" + h[16..20];
    var s := c + "-" + h[20..];
    assert |a| == 13 && |b| == 18 && |c| == 23;
    assert s[..23] == c && s[..18] == b && s[..13] == a;
    assert s[..8] == h[..8] && s[9..13] == h[8..12];
    assert s[14..18] == h[12..16];
    assert s[19..23] == h[16..20];
    assert s[24..] == h[20..];
  }

  lemma DashedBack(h: string)
    requires |h| == 32 && forall i | 0 <= i < 32 :: IsHex(h[i])
    ensures IsEpoch(Dashed(h)) && Compact(Dashed(h)) == h
  {
    var s := Dashed(h);
    DashedParts(h);
    forall i | 0 <= i < 36 ensures if DashAt(i) then s[i] == '-' else IsHex(s[i]) {
      if i < 8 {
        assert s[i] == h[..8][i];
      } else if 8 < i < 13 {
        assert s[i] == s[9..13][i - 9] == h[i - 1];
      } else if 13 < i < 18 {
        assert s[i] == s[14..18][i - 14] == h[i - 2];
      } else if 18 < i < 23 {
        assert s[i] == s[19..23][i - 19] == h[i - 3];
      } else if 23 < i {
        assert s[i] == s[24..][i - 24] == h[i - 4];
      }
    }
    assert h == h[..8] + h[8..12] + h[12..16] + h[16..20] + h[20..];
  }

  lemma {:induction false} PaddedBack(n: nat, width: nat)
    requires n < TenTo(width)
    ensures DecimalValue(Padded(n, width)) == n
  {
    if width > 0 {
      PaddedBack(n / 10, width - 1);
      var s := Padded(n, width);
      assert s[..|s| - 1] == Padded(n / 10, width - 1);
    }
  }

  lemma {:induction false} ValueBack(s: string)
    requires forall i | 0 <= i < |s| :: IsDigit(s[i])
    ensures DecimalValue(s) < TenTo(|s|) && Padded(DecimalValue(s), |s|) == s
  {
    if s != "" {
      var front := s[..|s| - 1];
      ValueBack(front);
      assert DecimalValue(s) / 10 == DecimalValue(front) && DecimalValue(s) % 10 == DigitValue(s[|s| - 1]);
      assert s == front + [s[|s| - 1]];
    }
  }

  lemma SequencesFit(n: int)
    requires n <= MAX_SEQUENCE
    ensures n < TenTo(16)
  {
    assert TenTo(4) == 10000;
    assert TenTo(8) == 10000 * TenTo(4);
    assert TenTo(12) == 10000 * TenTo(8);
    assert TenTo(16) == 10000 * TenTo(12);
  }

  lemma NameParts(h: string, p: string)
    requires |h| == 32 && |p| == 16
    ensures var s := "sample-" + h + "-" + p + ".json";
            s[..7] == "sample-" && s[7..39] == h && s[39] == '-' && s[40..56] == p && s[56..] == ".json"
  {
  }

  /** The key of a record can be read back from its name. */
  lemma NameReadBack(k: Key)
    requires IsKey(k)
    ensures IsRecordName(Name(k)) && KeyOf(Name(k)) == k
  {
    var s := Name(k);
    var h, p := Compact(k.epoch), Padded(k.sequence, 16);
    NameParts(h, p);
    forall i | 7 <= i < 39 ensures IsHex(s[i]) {
      assert s[i] == s[7..39][i - 7];
    }
    forall i | 40 <= i < 56 ensures IsDigit(s[i]) {
      assert s[i] == s[40..56][i - 40];
    }
    CompactBack(k.epoch);
    SequencesFit(k.sequence);
    PaddedBack(k.sequence, 16);
  }

  lemma WholeName(s: string)
    requires |s| == 61 && s[..7] == "sample-" && s[39] == '-' && s[56..] == ".json"
    ensures s == "sample-" + s[7..39] + "-" + s[40..56] + ".json"
  {
    assert s == s[..7] + s[7..39] + [s[39]] + s[40..56] + s[56..];
  }

  lemma PartsOfName(s: string)
    requires IsRecordName(s)
    ensures forall i | 0 <= i < 32 :: IsHex(s[7..39][i])
    ensures forall i | 0 <= i < 16 :: IsDigit(s[40..56][i])
  {
  }

  /** A record name with a legal sequence is the name of its key. */
  lemma KeyReadBack(s: string)
    requires IsRecordName(s) && KeyOf(s).sequence <= MAX_SEQUENCE
    ensures IsKey(KeyOf(s)) && Name(KeyOf(s)) == s
  {
    PartsOfName(s);
    DashedBack(s[7..39]);
    ValueBack(s[40..56]);
    WholeName(s);
  }

  // ----- Order -----

  /** The order of texts by code points. */
  predicate Less(a: string, b: string) {
    if b == "" then false
    else if a == "" then true
    else a[0] < b[0] || (a[0] == b[0] && Less(a[1..], b[1..]))
  }

  predicate KeyLess(a: Key, b: Key) {
    Less(a.epoch, b.epoch) || (a.epoch == b.epoch && a.sequence < b.sequence)
  }

  lemma {:induction false} LessSplits(a: string, b: string, x: string, y: string)
    requires |a| == |b|
    ensures Less(a + x, b + y) <==> Less(a, b) || (a == b && Less(x, y))
  {
    if a == "" {
      assert a + x == x && b + y == y;
    } else {
      assert (a + x)[1..] == a[1..] + x && (b + y)[1..] == b[1..] + y;
      LessSplits(a[1..], b[1..], x, y);
      assert a == [a[0]] + a[1..] && b == [b[0]] + b[1..];
    }
  }

  lemma {:induction false} NotLessItself(a: string)
    ensures !Less(a, a)
  {
    if a != "" {
      NotLessItself(a[1..]);
    }
  }

  lemma {:induction false} LessIsTotal(a: string, b: string)
    requires a != b
    ensures Less(a, b) <==> !Less(b, a)
  {
    if a != "" && b != "" && a[0] == b[0] {
      assert a == [a[0]] + a[1..] && b == [b[0]] + b[1..];
      LessIsTotal(a[1..], b[1..]);
    }
  }

  lemma {:induction false} LessIsTransitive(a: string, b: string, c: string)
    requires Less(a, b) && Less(b, c)
    ensures Less(a, c)
  {
    if a != "" && a[0] == b[0] == c[0] {
      LessIsTransitive(a[1..], b[1..], c[1..]);
    }
  }

  lemma KeyLessIsTotal(a: Key, b: Key)
    requires a != b
    ensures KeyLess(a, b) <==> !KeyLess(b, a)
  {
    if a.epoch == b.epoch {
      NotLessItself(a.epoch);
    } else {
      LessIsTotal(a.epoch, b.epoch);
    }
  }

  lemma KeyLessIsTransitive(a: Key, b: Key, c: Key)
    requires KeyLess(a, b) && KeyLess(b, c)
    ensures KeyLess(a, c) && a != c
  {
    NotLessItself(a.epoch);
    if a.epoch != b.epoch && b.epoch != c.epoch {
      LessIsTransitive(a.epoch, b.epoch, c.epoch);
    }
  }

  lemma {:induction false} PaddedOrder(m: nat, n: nat, width: nat)
    requires m < TenTo(width) && n < TenTo(width)
    ensures Less(Padded(m, width), Padded(n, width)) <==> m < n
  {
    if width > 0 {
      PaddedOrder(m / 10, n / 10, width - 1);
      LessSplits(Padded(m / 10, width - 1), Padded(n / 10, width - 1), [Digit(m % 10)], [Digit(n % 10)]);
      PaddedBack(m / 10, width - 1);
      PaddedBack(n / 10, width - 1);
    }
  }

  lemma SkipDash(a: string, b: string, x: string, y: string)
    requires |a| == |b|
    ensures Less(a + "-" + x, b + "-" + y) <==> Less(a + x, b + y)
  {
    LessSplits(a, b, x, y);
    LessSplits(a + "-", b + "-", x, y);
    LessSplits(a, b, "-", "-");
    NotLessItself("-");
    assert (a + "-")[..|a|] == a && (b + "-")[..|b|] == b;
  }

  /** The parts of an epoch with the first n dashes taken out: what is in front, and what is behind. */
  function Front(s: string, n: nat): string
    requires |s| == 36 && n <= 4
  {
    match n
    case 0 => s[..8]
    case 1 => Front(s, 0) + s[9..13]
    case 2 => Front(s, 1) + s[14..18]
    case 3 => Front(s, 2) + s[19..23]
    case _ => Compact(s)
  }

  function Back(s: string, n: nat): string
    requires |s| == 36 && n <= 3
  {
    match n
    case 0 => s[9..]
    case 1 => s[14..]
    case 2 => s[19..]
    case _ => s[24..]
  }

  lemma CutDash(front: string, s: string, i: nat, j: nat)
    requires i <= j < |s| && s[j] == '-'
    ensures front + s[i..] == (front + s[i..j]) + "-" + s[j + 1..]
  {
    assert s[i..] == s[i..j] + "-" + s[j + 1..];
  }

  lemma DashOut(s: string, n: nat)
    requires IsEpoch(s) && n < 3
    ensures Front(s, n) + Back(s, n) == Front(s, n + 1) + "-" + Back(s, n + 1)
  {
    CutDash(Front(s, n), s, 9 + 5 * n, 13 + 5 * n);
  }

  lemma CompactOrder(a: string, b: string)
    requires IsEpoch(a) && IsEpoch(b)
    ensures Less(Compact(a), Compact(b)) <==> Less(a, b)
  {
    assert a == Front(a, 0) + "-" + Back(a, 0) && b == Front(b, 0) + "-" + Back(b, 0);
    SkipDash(Front(a, 0), Front(b, 0), Back(a, 0), Back(b, 0));
    DashOut(a, 0);
    DashOut(b, 0);
    SkipDash(Front(a, 1), Front(b, 1), Back(a, 1), Back(b, 1));
    DashOut(a, 1);
    DashOut(b, 1);
    SkipDash(Front(a, 2), Front(b, 2), Back(a, 2), Back(b, 2));
    DashOut(a, 2);
    DashOut(b, 2);
    SkipDash(Front(a, 3), Front(b, 3), Back(a, 3), Back(b, 3));
    assert Front(a, 3) + Back(a, 3) == Compact(a) && Front(b, 3) + Back(b, 3) == Compact(b);
  }

  /** Names sort as their keys do: by epoch, then by sequence. */
  lemma NamesSortAsKeys(a: Key, b: Key)
    requires IsKey(a) && IsKey(b)
    ensures Less(Name(a), Name(b)) <==> KeyLess(a, b)
  {
    var ha, hb := Compact(a.epoch), Compact(b.epoch);
    var pa, pb := Padded(a.sequence, 16), Padded(b.sequence, 16);
    NotLessItself("sample-");
    NotLessItself(".json");
    LessSplits("sample-" + ha + "-" + pa, "sample-" + hb + "-" + pb, ".json", ".json");
    LessSplits("sample-" + ha + "-", "sample-" + hb + "-", pa, pb);
    SkipDash("sample-" + ha, "sample-" + hb, "", "");
    LessSplits("sample-", "sample-", ha, hb);
    assert "sample-" + ha + "" == "sample-" + ha && "sample-" + hb + "" == "sample-" + hb;
    assert "sample-" + ha + "-" + "" == "sample-" + ha + "-" && "sample-" + hb + "-" + "" == "sample-" + hb + "-";
    SequencesFit(a.sequence);
    SequencesFit(b.sequence);
    PaddedOrder(a.sequence, b.sequence, 16);
    CompactOrder(a.epoch, b.epoch);
    CompactBack(a.epoch);
    CompactBack(b.epoch);
    SameStart(ha, hb);
    NotLessItself(a.epoch);
  }

  lemma SameStart(a: string, b: string)
    ensures "sample-" + a + "-" == "sample-" + b + "-" <==> a == b
  {
    assert ("sample-" + a + "-")[7..7 + |a|] == a && ("sample-" + b + "-")[7..7 + |b|] == b;
  }
}
