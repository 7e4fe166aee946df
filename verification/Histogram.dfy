/**
 The cumulative histogram check `_histogram` of scripts/lib/inference_metrics.py, against the
 histograms that observations can really have.
 */
module Histogram {
  import opened Prelude
  import opened Numbers

  datatype Bound = Finite(value: real) | Infinite

  datatype Flaw = Incomplete | BoundaryInvalid | NumberInvalid | NotMonotone | CountSumMismatch | SumOutsideBounds

  const MAX_BUCKETS := 128

  // ----- What is checked -----

  predicate Complete(bounds: seq<Bound>, counts: seq<int>, count: Option<int>, total: Option<real>) {
    bounds != [] && |bounds| <= MAX_BUCKETS && |bounds| == |counts| && bounds[|bounds| - 1].Infinite?
    && count.Some? && total.Some?
  }

  /** Finite legal boundaries, strictly increasing, and one infinite boundary at the end. */
  predicate Bounded(bounds: seq<Bound>) {
    && bounds != [] && bounds[|bounds| - 1].Infinite?
    && (forall i | 0 <= i < |bounds| - 1 :: bounds[i].Finite? && LegalNumber(bounds[i].value))
    && (forall i, j | 0 <= i < j < |bounds| - 1 :: bounds[i].value < bounds[j].value)
  }

  predicate Cumulative(counts: seq<int>) {
    && (forall i | 0 <= i < |counts| :: LegalCount(counts[i]))
    && (forall i, j | 0 <= i < j < |counts| :: counts[i] <= counts[j])
  }

  predicate Shaped(bounds: seq<Bound>, counts: seq<int>) {
    Bounded(bounds) && Cumulative(counts) && |bounds| == |counts|
  }

  function Below(bounds: seq<Bound>, k: nat): real
    requires k < |bounds|
  {
    if k == 0 || bounds[k - 1].Infinite? then 0.0 else bounds[k - 1].value
  }

  function InBucket(counts: seq<int>, k: nat): int
    requires k < |counts|
  {
    if k == 0 then counts[0] else counts[k] - counts[k - 1]
  }

  /** What this many observations at one edge add to a sum. */
  function Weigh(edge: real, observations: int): real {
    if observations <= 0 then 0.0 else Weigh(edge, observations - 1) + edge
  }

  lemma {:induction false} WeighIsProduct(edge: real, observations: nat)
    ensures Weigh(edge, observations) == edge * observations as real
  {
    if observations > 0 {
      WeighIsProduct(edge, observations - 1);
      assert edge * observations as real == edge * (observations - 1) as real + edge;
    }
  }

  lemma {:induction false} WeighMore(edge: real, m: nat, n: nat)
    ensures Weigh(edge, m + n) == Weigh(edge, m) + Weigh(edge, n)
  {
    if n > 0 {
      WeighMore(edge, m, n - 1);
    }
  }

  /** The least sum the first n buckets allow: every observation at the lower edge. */
  function Lower(bounds: seq<Bound>, counts: seq<int>, n: nat): real
    requires n <= |bounds| == |counts|
  {
    if n == 0 then 0.0
    else Lower(bounds, counts, n - 1) + Weigh(Below(bounds, n - 1), InBucket(counts, n - 1))
  }

  /** The greatest sum the finite ones among the first n buckets allow. */
  function Upper(bounds: seq<Bound>, counts: seq<int>, n: nat): real
    requires n <= |bounds| == |counts|
  {
    if n == 0 then 0.0
    else
      Upper(bounds, counts, n - 1) +
      (if bounds[n - 1].Finite? then Weigh(bounds[n - 1].value, InBucket(counts, n - 1)) else 0.0)
  }

  predicate Unbounded(counts: seq<int>)
    requires counts != []
  {
    InBucket(counts, |counts| - 1) > 0
  }

  function Tolerance(lower: real, upper: real, total: real): real {
    0.000000001 * Max(Max(Max(1.0, lower), upper), total)
  }

  predicate Feasible(bounds: seq<Bound>, counts: seq<int>, total: real)
    requires |bounds| == |counts| && counts != []
  {
    var lower, upper := Lower(bounds, counts, |bounds|), Upper(bounds, counts, |bounds|);
    var slack := Tolerance(lower, upper, total);
    lower - slack <= total && (Unbounded(counts) || total <= upper + slack)
  }

  predicate Matched(counts: seq<int>, count: int, total: real)
    requires counts != []
  {
    counts[|counts| - 1] == count && (count == 0 ==> total == 0.0)
  }

  predicate Accepted(bounds: seq<Bound>, counts: seq<int>, count: int, total: real) {
    && |bounds| <= MAX_BUCKETS && Shaped(bounds, counts)
    && LegalCount(count) && LegalNumber(total)
    && Matched(counts, count, total)
    && Feasible(bounds, counts, total)
  }

  /** The two passes of the program over the buckets. */
  method CheckShape(bounds: seq<Bound>, counts: seq<int>) returns (flaw: Option<Flaw>)
    requires bounds != [] && |bounds| == |counts| && bounds[|bounds| - 1].Infinite?
    ensures flaw.None? <==> Shaped(bounds, counts)
    ensures flaw.Some? ==> flaw.value in {BoundaryInvalid, NumberInvalid, NotMonotone}
  {
    var lastBound, lastCount := -1.0, 0;
    var i := 0;
    while i < |bounds|
      invariant 0 <= i <= |bounds|
      invariant forall k | 0 <= k < i :: bounds[k].Finite? <==> k < |bounds| - 1
      invariant forall k | 0 <= k < i && bounds[k].Finite? :: LegalNumber(bounds[k].value) && bounds[k].value <= lastBound
      invariant forall j, k | 0 <= j < k < i && bounds[k].Finite? && bounds[j].Finite? :: bounds[j].value < bounds[k].value
      invariant lastBound == (if i == 0 then -1.0 else if bounds[i - 1].Finite? then bounds[i - 1].value else lastBound)
      invariant lastCount == (if i == 0 then 0 else counts[i - 1])
      invariant forall k | 0 <= k < i :: LegalCount(counts[k]) && counts[k] <= lastCount
      invariant forall j, k | 0 <= j < k < i :: counts[j] <= counts[k]
    {
      match bounds[i] {
        case Finite(value) =>
          if !LegalNumber(value) {
            return Some(NumberInvalid);
          }
          if value <= lastBound {
            return Some(BoundaryInvalid);
          }
          lastBound := value;
        case Infinite =>
          if i < |bounds| - 1 {
            return Some(BoundaryInvalid);
          }
      }
      if !LegalCount(counts[i]) {
        return Some(NumberInvalid);
      }
      if counts[i] < lastCount {
        return Some(NotMonotone);
      }
      lastCount := counts[i];
      i := i + 1;
    }
    flaw := None;
  }

  method CheckSum(bounds: seq<Bound>, counts: seq<int>, total: real) returns (feasible: bool)
    requires Shaped(bounds, counts)
    ensures feasible == Feasible(bounds, counts, total)
  {
    var lower, upper, previousBound := 0.0, 0.0, 0.0;
    var previousCount := 0;
    var unbounded := false;
    var i := 0;
    while i < |bounds|
      invariant 0 <= i <= |bounds|
      invariant lower == Lower(bounds, counts, i) && upper == Upper(bounds, counts, i)
      invariant i < |bounds| ==> previousBound == Below(bounds, i)
      invariant previousCount == (if i == 0 then 0 else counts[i - 1])
      invariant unbounded == (i == |bounds| && Unbounded(counts))
    {
      var observations := counts[i] - previousCount;
      assert observations == InBucket(counts, i);
      WeighIsProduct(previousBound, observations);
      lower := lower + previousBound * observations as real;
      match bounds[i] {
        case Infinite => unbounded := observations > 0;
        case Finite(value) =>
          WeighIsProduct(value, observations);
          upper := upper + value * observations as real;
          previousBound := value;
      }
      previousCount := counts[i];
      i := i + 1;
    }
    var slack := Tolerance(lower, upper, total);
    feasible := !(total < lower - slack || (!unbounded && total > upper + slack));
  }

  method Check(bounds: seq<Bound>, counts: seq<int>, count: Option<int>, total: Option<real>) returns (flaw: Option<Flaw>)
    ensures flaw == Some(Incomplete) <==> !Complete(bounds, counts, count, total)
    ensures flaw.None? <==> Complete(bounds, counts, count, total) && Accepted(bounds, counts, count.value, total.value)
    ensures flaw == Some(SumOutsideBounds) <==>
            && Complete(bounds, counts, count, total) && Shaped(bounds, counts)
            && LegalCount(count.value) && LegalNumber(total.value) && Matched(counts, count.value, total.value)
            && !Feasible(bounds, counts, total.value)
  {
    if bounds == [] || |bounds| > MAX_BUCKETS || |bounds| != |counts| || !bounds[|bounds| - 1].Infinite?
       || count.None? || total.None? {
      return Some(Incomplete);
    }
    var shape := CheckShape(bounds, counts);
    if shape.Some? {
      return shape;
    }
    if !LegalCount(count.value) || !LegalNumber(total.value) {
      return Some(NumberInvalid);
    }
    if counts[|counts| - 1] != count.value || (count.value == 0 && total.value != 0.0) {
      return Some(CountSumMismatch);
    }
    var feasible := CheckSum(bounds, counts, total.value);
    flaw := if feasible then None else Some(SumOutsideBounds);
  }

  // ----- Real histograms -----

  predicate Within(x: real, b: Bound) {
    b.Infinite? || x <= b.value
  }

  function CountWithin(xs: seq<real>, b: Bound): nat {
    if xs == [] then 0 else CountWithin(xs[..|xs| - 1], b) + (if Within(xs[|xs| - 1], b) then 1 else 0)
  }

  function Total(xs: seq<real>): real {
    if xs == [] then 0.0 else Total(xs[..|xs| - 1]) + xs[|xs| - 1]
  }

  predicate Observations(xs: seq<real>) {
    forall i | 0 <= i < |xs| :: xs[i] >= 0.0
  }

  function CountsOf(xs: seq<real>, bounds: seq<Bound>): (counts: seq<int>)
    ensures |counts| == |bounds|
    ensures forall i | 0 <= i < |bounds| :: counts[i] == CountWithin(xs, bounds[i])
  {
    seq(|bounds|, i requires 0 <= i < |bounds| => CountWithin(xs, bounds[i]))
  }

  /** The cumulative histogram of these observations over these boundaries. */
  predicate IsHistogram(xs: seq<real>, bounds: seq<Bound>, counts: seq<int>, count: int, total: real) {
    Observations(xs) && counts == CountsOf(xs, bounds) && count == |xs| && total == Total(xs)
  }

  lemma {:induction false} CountAppend(xs: seq<real>, ys: seq<real>, b: Bound)
    ensures CountWithin(xs + ys, b) == CountWithin(xs, b) + CountWithin(ys, b)
  {
    if ys == [] {
      assert xs + ys == xs;
    } else {
      assert (xs + ys)[..|xs + ys| - 1] == xs + ys[..|ys| - 1];
      CountAppend(xs, ys[..|ys| - 1], b);
    }
  }

  lemma {:induction false} TotalAppend(xs: seq<real>, ys: seq<real>)
    ensures Total(xs + ys) == Total(xs) + Total(ys)
  {
    if ys == [] {
      assert xs + ys == xs;
    } else {
      assert (xs + ys)[..|xs + ys| - 1] == xs + ys[..|ys| - 1];
      TotalAppend(xs, ys[..|ys| - 1]);
    }
  }

  lemma {:induction false} EdgesAdd(bounds: seq<Bound>, a: seq<int>, b: seq<int>, c: seq<int>, n: nat)
    requires n <= |bounds| == |a| == |b| == |c|
    requires forall i | 0 <= i < n :: c[i] == a[i] + b[i]
    requires forall i | 0 <= i < n :: InBucket(a, i) >= 0 && InBucket(b, i) >= 0
    ensures Lower(bounds, c, n) == Lower(bounds, a, n) + Lower(bounds, b, n)
    ensures Upper(bounds, c, n) == Upper(bounds, a, n) + Upper(bounds, b, n)
  {
    if n > 0 {
      EdgesAdd(bounds, a, b, c, n - 1);
      var m: nat, m': nat := InBucket(a, n - 1), InBucket(b, n - 1);
      assert InBucket(c, n - 1) == m + m';
      WeighMore(Below(bounds, n - 1), m, m');
      if bounds[n - 1].Finite? {
        WeighMore(bounds[n - 1].value, m, m');
      }
    }
  }

  /** One observation lies strictly above the lower edge of its bucket, or in the first one. */
  lemma {:induction false} EdgesOfOne(bounds: seq<Bound>, x: real, n: nat)
    requires Bounded(bounds) && x >= 0.0 && 1 <= n <= |bounds|
    ensures var counts := CountsOf([x], bounds);
            && (counts[n - 1] == 0 ==> Lower(bounds, counts, n) == Upper(bounds, counts, n) == 0.0)
            && (counts[n - 1] == 1 ==>
                  && Lower(bounds, counts, n) <= x
                  && (counts[0] == 1 || Lower(bounds, counts, n) < x)
                  && ((n == |bounds| && Unbounded(counts)) || x <= Upper(bounds, counts, n)))
            && 0 <= counts[n - 1] <= 1
  {
    var counts := CountsOf([x], bounds);
    OneWithin(x, bounds);
    var k := n - 1;
    if n > 1 {
      EdgesOfOne(bounds, x, k);
    }
    var here := InBucket(counts, k);
    assert here == 0 || here == 1;
    assert Weigh(Below(bounds, k), here) == if here == 0 then 0.0 else Below(bounds, k);
    assert bounds[k].Finite? ==> Weigh(bounds[k].value, here) == if here == 0 then 0.0 else bounds[k].value;
  }

  lemma OneWithin(x: real, bounds: seq<Bound>)
    requires Bounded(bounds)
    ensures var counts := CountsOf([x], bounds);
            && (forall i | 0 <= i < |bounds| :: counts[i] == if Within(x, bounds[i]) then 1 else 0)
            && (forall i, j | 0 <= i < j < |bounds| :: counts[i] <= counts[j])
  {
    assert forall b :: CountWithin([x], b) == if Within(x, b) then 1 else 0;
  }

  lemma CountsOfMore(xs: seq<real>, x: real, bounds: seq<Bound>)
    ensures forall i | 0 <= i < |bounds| ::
              CountsOf(xs + [x], bounds)[i] == CountsOf(xs, bounds)[i] + CountsOf([x], bounds)[i]
    ensures Total(xs + [x]) == Total(xs) + x
  {
    assert (xs + [x])[..|xs|] == xs;
    forall b ensures CountWithin(xs + [x], b) == CountWithin(xs, b) + CountWithin([x], b) {
      assert [x][..0] == [];
    }
  }

  lemma {:induction false} CountsAreCumulative(xs: seq<real>, bounds: seq<Bound>)
    requires Bounded(bounds)
    ensures var counts := CountsOf(xs, bounds);
            && counts[|bounds| - 1] == |xs|
            && (forall i, j | 0 <= i < j < |bounds| :: counts[i] <= counts[j])
            && (forall i | 0 <= i < |bounds| :: 0 <= counts[i] <= |xs|)
  {
    if xs != [] {
      CountsAreCumulative(xs[..|xs| - 1], bounds);
    }
  }

  predicate WithinEdges(bounds: seq<Bound>, counts: seq<int>, count: int, total: real)
    requires |bounds| == |counts| && counts != []
  {
    && Lower(bounds, counts, |bounds|) <= total
    && (counts[0] == count || Lower(bounds, counts, |bounds|) < total)
    && (Unbounded(counts) || total <= Upper(bounds, counts, |bounds|))
  }

  lemma WithinEdgesAdd(bounds: seq<Bound>, a: seq<int>, b: seq<int>, c: seq<int>, m: int, n: int, total: real, more: real)
    requires bounds != [] && |bounds| == |a| == |b| == |c|
    requires forall i | 0 <= i < |bounds| :: c[i] == a[i] + b[i]
    requires forall i | 0 <= i < |bounds| :: InBucket(a, i) >= 0 && InBucket(b, i) >= 0
    requires WithinEdges(bounds, a, m, total) && WithinEdges(bounds, b, n, more) && a[0] <= m && b[0] <= n
    ensures WithinEdges(bounds, c, m + n, total + more)
  {
    EdgesAdd(bounds, a, b, c, |bounds|);
    assert InBucket(c, |c| - 1) == InBucket(a, |a| - 1) + InBucket(b, |b| - 1);
  }

  /** The sum of real observations lies between the edges of their buckets, and strictly above the
      lower one unless all of them are in the first bucket. */
  lemma {:induction false} SumIsWithinEdges(xs: seq<real>, bounds: seq<Bound>)
    requires Bounded(bounds) && Observations(xs)
    ensures WithinEdges(bounds, CountsOf(xs, bounds), |xs|, Total(xs))
  {
    CountsAreCumulative(xs, bounds);
    if xs == [] {
      NoObservations(bounds, |bounds|);
    } else {
      var front, x := xs[..|xs| - 1], xs[|xs| - 1];
      assert front + [x] == xs;
      SumIsWithinEdges(front, bounds);
      CountsAreCumulative(front, bounds);
      CountsOfMore(front, x, bounds);
      EdgesOfOne(bounds, x, |bounds|);
      CountsAreCumulative([x], bounds);
      WithinEdgesAdd(bounds, CountsOf(front, bounds), CountsOf([x], bounds), CountsOf(xs, bounds), |front|, 1, Total(front), x);
    }
  }

  lemma {:induction false} NoObservations(bounds: seq<Bound>, n: nat)
    requires n <= |bounds|
    ensures Lower(bounds, CountsOf([], bounds), n) == Upper(bounds, CountsOf([], bounds), n) == 0.0
  {
    if n > 0 {
      NoObservations(bounds, n - 1);
    }
  }

  lemma WithinEdgesIsFeasible(bounds: seq<Bound>, counts: seq<int>, count: int, total: real)
    requires |bounds| == |counts| && counts != [] && WithinEdges(bounds, counts, count, total)
    ensures Feasible(bounds, counts, total)
  {
    assert Tolerance(Lower(bounds, counts, |bounds|), Upper(bounds, counts, |bounds|), total) > 0.0;
  }

  /** Every histogram that observations really have is accepted. */
  lemma RealHistogramsAreAccepted(xs: seq<real>, bounds: seq<Bound>)
    requires Observations(xs) && Bounded(bounds) && |bounds| <= MAX_BUCKETS
    requires LegalCount(|xs|) && LegalNumber(Total(xs))
    ensures Accepted(bounds, CountsOf(xs, bounds), |xs|, Total(xs))
  {
    CountsAreCumulative(xs, bounds);
    assert Cumulative(CountsOf(xs, bounds));
    SumIsWithinEdges(xs, bounds);
    WithinEdgesIsFeasible(bounds, CountsOf(xs, bounds), |xs|, Total(xs));
  }
}
