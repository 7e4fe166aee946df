/**
 The converse of the histogram check: for the tuples it accepts, when observations with that
 histogram exist, built explicitly, and when none can.
 */
module HistogramWitness {
  import opened Prelude
  import opened Numbers
  import opened Histogram

  function Repeat(x: real, n: nat): seq<real> {
    seq(n, _ => x)
  }

  /** Observations of the first n buckets, those of bucket k all at places[k]. */
  function Place(places: seq<real>, counts: seq<int>, n: nat): seq<real>
    requires n <= |places| == |counts| && Cumulative(counts)
  {
    if n == 0 then []
    else Place(places, counts, n - 1) + Repeat(places[n - 1], InBucket(counts, n - 1))
  }

  function Mass(places: seq<real>, counts: seq<int>, n: nat): real
    requires n <= |places| == |counts|
  {
    if n == 0 then 0.0 else Mass(places, counts, n - 1) + Weigh(places[n - 1], InBucket(counts, n - 1))
  }

  /** Every bucket that holds observations has its place inside it. */
  predicate InBuckets(bounds: seq<Bound>, counts: seq<int>, places: seq<real>) {
    && |bounds| == |counts| == |places|
    && (forall k | 0 <= k < |bounds| :: places[k] >= 0.0 && Within(places[k], bounds[k]))
    && (forall k | 0 < k < |bounds| && InBucket(counts, k) > 0 :: bounds[k - 1].Finite? ==> places[k] > bounds[k - 1].value)
  }

  lemma {:induction false} RepeatCount(x: real, n: nat, b: Bound)
    ensures CountWithin(Repeat(x, n), b) == if Within(x, b) then n else 0
  {
    if n > 0 {
      RepeatCount(x, n - 1, b);
      assert Repeat(x, n)[..n - 1] == Repeat(x, n - 1);
    }
  }

  lemma {:induction false} RepeatTotal(x: real, n: nat)
    ensures Total(Repeat(x, n)) == Weigh(x, n)
  {
    if n > 0 {
      RepeatTotal(x, n - 1);
      assert Repeat(x, n)[..n - 1] == Repeat(x, n - 1);
    }
  }

  lemma PlacedWithin(bounds: seq<Bound>, counts: seq<int>, places: seq<real>, k: nat, i: nat)
    requires Shaped(bounds, counts) && InBuckets(bounds, counts, places) && k < |bounds| && i < |bounds|
    ensures k <= i ==> Within(places[k], bounds[i])
    ensures i < k && InBucket(counts, k) > 0 ==> !Within(places[k], bounds[i])
  {
    if i < k && InBucket(counts, k) > 0 {
      assert bounds[i].value <= bounds[k - 1].value < places[k];
    }
  }

  lemma PlaceCountsStep(counts: seq<int>, places: seq<real>, k: nat, b: Bound)
    requires Cumulative(counts) && k < |counts| == |places|
    ensures CountWithin(Place(places, counts, k + 1), b) ==
            CountWithin(Place(places, counts, k), b) + (if Within(places[k], b) then InBucket(counts, k) else 0)
  {
    var m: nat := InBucket(counts, k);
    CountAppend(Place(places, counts, k), Repeat(places[k], m), b);
    RepeatCount(places[k], m, b);
  }

  /** Each boundary sees exactly the observations placed at or below it. */
  lemma {:induction false} PlaceCounts(bounds: seq<Bound>, counts: seq<int>, places: seq<real>, n: nat, i: nat)
    requires Shaped(bounds, counts) && InBuckets(bounds, counts, places) && n <= |bounds| && i < |bounds|
    ensures CountWithin(Place(places, counts, n), bounds[i]) ==
            if n == 0 then 0 else if i < n then counts[i] else counts[n - 1]
  {
    if n > 0 {
      var k := n - 1;
      PlaceCounts(bounds, counts, places, k, i);
      PlaceCountsStep(counts, places, k, bounds[i]);
      PlacedWithin(bounds, counts, places, k, i);
    }
  }

  lemma {:induction false} PlaceIsObserved(bounds: seq<Bound>, counts: seq<int>, places: seq<real>, n: nat)
    requires Shaped(bounds, counts) && InBuckets(bounds, counts, places) && n <= |bounds|
    ensures Observations(Place(places, counts, n))
    ensures |Place(places, counts, n)| == if n == 0 then 0 else counts[n - 1]
    ensures Total(Place(places, counts, n)) == Mass(places, counts, n)
  {
    if n > 0 {
      PlaceIsObserved(bounds, counts, places, n - 1);
      var m: nat := InBucket(counts, n - 1);
      TotalAppend(Place(places, counts, n - 1), Repeat(places[n - 1], m));
      RepeatTotal(places[n - 1], m);
    }
  }

  /** Observations placed inside their buckets have the histogram they were placed for. */
  lemma PlaceRealises(bounds: seq<Bound>, counts: seq<int>, places: seq<real>)
    requires Shaped(bounds, counts) && InBuckets(bounds, counts, places)
    ensures IsHistogram(Place(places, counts, |bounds|), bounds, counts, counts[|counts| - 1], Mass(places, counts, |bounds|))
  {
    PlaceIsObserved(bounds, counts, places, |bounds|);
    PlaceHasCounts(bounds, counts, places);
  }

  lemma PlaceHasCounts(bounds: seq<Bound>, counts: seq<int>, places: seq<real>)
    requires Shaped(bounds, counts) && InBuckets(bounds, counts, places)
    ensures counts == CountsOf(Place(places, counts, |bounds|), bounds)
  {
    var seen := CountsOf(Place(places, counts, |bounds|), bounds);
    forall i | 0 <= i < |counts| ensures seen[i] == counts[i] {
      PlaceCounts(bounds, counts, places, |bounds|, i);
    }
  }

  // ----- Where to place them -----

  /** The given share of an amount. */
  function Part(share: real, x: real): real {
    share * x
  }

  lemma Distribute(share: real, whole: real, x: real, y: real)
    requires whole == x + y
    ensures Part(share, whole) == Part(share, x) + Part(share, y)
  {
  }

  /** How far into each finite bucket the observations sit, and how far past the last boundary. */
  datatype Placing = Placing(share: real, excess: real)

  function Placed(p: Placing, edge: real, b: Bound): real {
    match b
    case Finite(value) => edge + Part(p.share, value - edge)
    case Infinite => edge + p.excess
  }

  function Places(bounds: seq<Bound>, p: Placing): (places: seq<real>)
    ensures |places| == |bounds|
  {
    seq(|bounds|, k requires 0 <= k < |bounds| => Placed(p, Below(bounds, k), bounds[k]))
  }

  predicate Usable(counts: seq<int>, p: Placing) {
    && 0.0 <= p.share <= 1.0 && 0.0 <= p.excess
    && ((p.share > 0.0 && p.excess > 0.0) || (forall k | 0 < k < |counts| :: InBucket(counts, k) == 0))
  }

  lemma ShareIsSmaller(share: real, x: real)
    requires 0.0 <= share <= 1.0 && 0.0 <= x
    ensures 0.0 <= Part(share, x) <= x
    ensures share > 0.0 && x > 0.0 ==> Part(share, x) > 0.0
  {
    assert x - share * x == (1.0 - share) * x;
  }

  lemma PlacedBetween(p: Placing, edge: real, b: Bound)
    requires 0.0 <= p.share <= 1.0 && 0.0 <= p.excess && 0.0 <= edge && (b.Finite? ==> edge <= b.value)
    ensures Placed(p, edge, b) >= edge && Within(Placed(p, edge, b), b)
    ensures p.share > 0.0 && p.excess > 0.0 && (b.Finite? ==> edge < b.value) ==> Placed(p, edge, b) > edge
  {
    if b.Finite? {
      ShareIsSmaller(p.share, b.value - edge);
    }
  }

  lemma PlaceIsInside(bounds: seq<Bound>, counts: seq<int>, p: Placing, k: nat)
    requires Shaped(bounds, counts) && Usable(counts, p) && k < |bounds|
    ensures Places(bounds, p)[k] >= 0.0 && Within(Places(bounds, p)[k], bounds[k])
    ensures k > 0 && InBucket(counts, k) > 0 ==> Places(bounds, p)[k] > bounds[k - 1].value
  {
    PlacedBetween(p, Below(bounds, k), bounds[k]);
  }

  lemma PlacesAreInside(bounds: seq<Bound>, counts: seq<int>, p: Placing)
    requires Shaped(bounds, counts) && Usable(counts, p)
    ensures InBuckets(bounds, counts, Places(bounds, p))
  {
    forall k | 0 <= k < |bounds|
      ensures Places(bounds, p)[k] >= 0.0 && Within(Places(bounds, p)[k], bounds[k])
      ensures k > 0 && InBucket(counts, k) > 0 ==> Places(bounds, p)[k] > bounds[k - 1].value
    {
      PlaceIsInside(bounds, counts, p, k);
    }
  }

  lemma {:induction false} WeighSum(x: real, y: real, m: nat)
    ensures Weigh(x + y, m) == Weigh(x, m) + Weigh(y, m)
  {
    if m > 0 {
      WeighSum(x, y, m - 1);
    }
  }

  lemma {:induction false} WeighPart(share: real, x: real, m: nat)
    ensures Weigh(Part(share, x), m) == Part(share, Weigh(x, m))
  {
    if m > 0 {
      WeighPart(share, x, m - 1);
      Distribute(share, Weigh(x, m), Weigh(x, m - 1), x);
    }
  }

  /** A share of the way between two edges weighs that share of the way between their weights. */
  lemma WeighBetween(share: real, edge: real, value: real, m: nat)
    ensures Weigh(edge + Part(share, value - edge), m) == Weigh(edge, m) + Part(share, Weigh(value, m) - Weigh(edge, m))
  {
    WeighSum(edge, Part(share, value - edge), m);
    WeighPart(share, value - edge, m);
    WeighSum(edge, value - edge, m);
    Distribute(share, Weigh(value, m) - Weigh(edge, m), Weigh(value - edge, m), 0.0);
  }

  predicate AllFinite(bounds: seq<Bound>, n: nat) {
    n <= |bounds| && forall k | 0 <= k < n :: bounds[k].Finite?
  }

  predicate Counted(counts: seq<int>, n: nat) {
    n <= |counts| && forall k | 0 <= k < n :: InBucket(counts, k) >= 0
  }

  /** A value the given share of the way between two edges. */
  predicate Blends(share: real, lower: real, upper: real, value: real) {
    value == lower + Part(share, upper - lower)
  }

  lemma BlendsAdd(share: real, lower: real, upper: real, value: real, lower': real, upper': real, value': real)
    requires Blends(share, lower, upper, value) && Blends(share, lower', upper', value')
    ensures Blends(share, lower + lower', upper + upper', value + value')
  {
    Distribute(share, (upper + upper') - (lower + lower'), upper - lower, upper' - lower');
  }

  /** Over the finite buckets the sum moves from the lower edges to the upper ones by the share. */
  lemma {:induction false} FiniteMass(bounds: seq<Bound>, counts: seq<int>, p: Placing, n: nat)
    requires AllFinite(bounds, n) && Counted(counts, n) && |counts| == |bounds|
    ensures Blends(p.share, Lower(bounds, counts, n), Upper(bounds, counts, n), Mass(Places(bounds, p), counts, n))
  {
    if n == 0 {
      Distribute(p.share, 0.0, 0.0, 0.0);
    } else {
      var k := n - 1;
      FiniteMass(bounds, counts, p, k);
      MassStep(bounds, counts, p, k);
      WeighBetween(p.share, Below(bounds, k), bounds[k].value, InBucket(counts, k));
      BlendsAdd(p.share, Lower(bounds, counts, k), Upper(bounds, counts, k), Mass(Places(bounds, p), counts, k),
                Weigh(Below(bounds, k), InBucket(counts, k)), Weigh(bounds[k].value, InBucket(counts, k)),
                Weigh(Placed(p, Below(bounds, k), bounds[k]), InBucket(counts, k)));
    }
  }

  lemma MassStep(bounds: seq<Bound>, counts: seq<int>, p: Placing, k: nat)
    requires k < |bounds| == |counts|
    ensures Mass(Places(bounds, p), counts, k + 1) ==
            Mass(Places(bounds, p), counts, k) + Weigh(Placed(p, Below(bounds, k), bounds[k]), InBucket(counts, k))
  {
  }

  lemma WholeMass(bounds: seq<Bound>, counts: seq<int>, p: Placing)
    requires bounds != [] && AllFinite(bounds, |bounds| - 1) && bounds[|bounds| - 1].Infinite?
    requires Counted(counts, |bounds|) && |counts| == |bounds|
    ensures Mass(Places(bounds, p), counts, |bounds|) ==
            Lower(bounds, counts, |bounds|) + Part(p.share, Room(bounds, counts))
            + Weigh(p.excess, InBucket(counts, |bounds| - 1))
  {
    var k := |bounds| - 1;
    FiniteMass(bounds, counts, p, k);
    WeighSum(Below(bounds, k), p.excess, InBucket(counts, k));
  }

  // ----- Choosing the placing -----

  /** The sum that lies above the lower edges, and the room the finite buckets offer. */
  function Surplus(bounds: seq<Bound>, counts: seq<int>, total: real): real
    requires |bounds| == |counts|
  {
    total - Lower(bounds, counts, |bounds|)
  }

  function Room(bounds: seq<Bound>, counts: seq<int>): real
    requires |bounds| == |counts| && bounds != []
  {
    Upper(bounds, counts, |bounds| - 1) - Lower(bounds, counts, |bounds| - 1)
  }

  lemma {:induction false} WiderWeighsMore(x: real, y: real, m: nat)
    requires x <= y
    ensures Weigh(x, m) <= Weigh(y, m)
  {
    if m > 0 {
      WiderWeighsMore(x, y, m - 1);
    }
  }

  lemma {:induction false} RoomIsLarge(bounds: seq<Bound>, counts: seq<int>, n: nat)
    requires Shaped(bounds, counts) && n < |bounds|
    ensures Lower(bounds, counts, n) <= Upper(bounds, counts, n)
  {
    if n > 0 {
      RoomIsLarge(bounds, counts, n - 1);
      WiderWeighsMore(Below(bounds, n - 1), bounds[n - 1].value, InBucket(counts, n - 1));
    }
  }

  /** What share of the room is used, and how far out the rest sits. */
  function ShareUsed(surplus: real, room: real): real {
    if room > 0.0 then surplus / room else 0.0
  }

  function Choose(surplus: real, room: real, far: nat): Placing {
    if far == 0 then Placing(ShareUsed(surplus, room), 1.0)
    else
      var share := ShareUsed(surplus, surplus + room);
      Placing(share, (surplus - Part(share, room)) / far as real)
  }

  predicate Suits(p: Placing, surplus: real, room: real, far: nat) {
    && Part(p.share, room) + Weigh(p.excess, far) == surplus
    && 0.0 <= p.share <= 1.0 && 0.0 <= p.excess
    && (surplus > 0.0 ==> p.share > 0.0 && p.excess > 0.0)
  }

  lemma ChosenSum(surplus: real, room: real, far: nat)
    requires surplus >= 0.0 && room >= 0.0 && (far == 0 ==> surplus <= room)
    ensures Suits(Choose(surplus, room, far), surplus, room, far)
  {
    if far == 0 {
      ShareOf(surplus, room);
    } else {
      var share := ShareUsed(surplus, surplus + room);
      ShareOf(surplus, surplus + room);
      Distribute(share, surplus + room, surplus, room);
      PartIsPositive(share, surplus);
      DividedOut(surplus - Part(share, room), far);
    }
  }

  lemma PartIsPositive(share: real, x: real)
    requires share >= 0.0 && x >= 0.0
    ensures Part(share, x) >= 0.0
    ensures share > 0.0 && x > 0.0 ==> Part(share, x) > 0.0
  {
  }

  lemma ShareOf(part: real, whole: real)
    requires 0.0 <= part <= whole
    ensures 0.0 <= ShareUsed(part, whole) <= 1.0 && Part(ShareUsed(part, whole), whole) == part
    ensures part > 0.0 ==> ShareUsed(part, whole) > 0.0
  {
  }

  lemma DividedOut(x: real, n: nat)
    requires n > 0 && x >= 0.0
    ensures Weigh(x / n as real, n) == x && x / n as real >= 0.0
    ensures x > 0.0 ==> x / n as real > 0.0
  {
    WeighIsProduct(x / n as real, n);
  }

  /** The condition, in terms of what the check computes. */
  predicate Attainable(bounds: seq<Bound>, counts: seq<int>, count: int, total: real)
    requires |bounds| == |counts| && counts != []
  {
    && (counts[0] == count || Lower(bounds, counts, |bounds|) < total)
    && (Unbounded(counts) || total <= Upper(bounds, counts, |bounds|))
  }

  lemma {:induction false} FirstBucketOnly(bounds: seq<Bound>, counts: seq<int>, n: nat)
    requires Shaped(bounds, counts) && 1 <= n <= |bounds| && counts[0] == counts[|counts| - 1]
    ensures Lower(bounds, counts, n) == 0.0
    ensures forall k | 0 < k < |counts| :: InBucket(counts, k) == 0
  {
    assert Below(bounds, 0) == 0.0;
    WeighNothing(counts[0]);
    if n > 1 {
      FirstBucketOnly(bounds, counts, n - 1);
    }
  }

  lemma {:induction false} WeighNothing(m: nat)
    ensures Weigh(0.0, m) == 0.0
  {
    if m > 0 {
      WeighNothing(m - 1);
    }
  }

  function Chosen(bounds: seq<Bound>, counts: seq<int>, total: real): Placing
    requires Shaped(bounds, counts)
  {
    Choose(Surplus(bounds, counts, total), Room(bounds, counts), InBucket(counts, |counts| - 1))
  }

  /** The witness: observations with exactly this histogram. */
  function Witness(bounds: seq<Bound>, counts: seq<int>, total: real): seq<real>
    requires Shaped(bounds, counts)
  {
    Place(Places(bounds, Chosen(bounds, counts, total)), counts, |bounds|)
  }

  lemma ChosenIsUsable(bounds: seq<Bound>, counts: seq<int>, count: int, total: real)
    requires Shaped(bounds, counts) && Matched(counts, count, total) && total >= 0.0
    requires Attainable(bounds, counts, count, total)
    ensures Usable(counts, Chosen(bounds, counts, total))
    ensures Mass(Places(bounds, Chosen(bounds, counts, total)), counts, |bounds|) == total
  {
    var k := |bounds| - 1;
    var far: nat := InBucket(counts, k);
    if counts[0] == count {
      FirstBucketOnly(bounds, counts, |bounds|);
    }
    RoomIsLarge(bounds, counts, k);
    assert far == 0 ==> Weigh(Below(bounds, k), far) == 0.0;
    ChosenSum(Surplus(bounds, counts, total), Room(bounds, counts), far);
    WholeMass(bounds, counts, Chosen(bounds, counts, total));
  }

  lemma WitnessRealises(bounds: seq<Bound>, counts: seq<int>, count: int, total: real)
    requires Shaped(bounds, counts) && Matched(counts, count, total) && total >= 0.0
    requires Attainable(bounds, counts, count, total)
    ensures IsHistogram(Witness(bounds, counts, total), bounds, counts, count, total)
  {
    ChosenIsUsable(bounds, counts, count, total);
    PlacesAreInside(bounds, counts, Chosen(bounds, counts, total));
    PlaceRealises(bounds, counts, Places(bounds, Chosen(bounds, counts, total)));
  }

  /** Among the tuples the check accepts, those that are the histogram of some observations are
      exactly the attainable ones. The check also lets through sums a tolerance outside the
      edges and a sum at the lower edges, which no observations have. */
  lemma RealisedExactly(bounds: seq<Bound>, counts: seq<int>, count: int, total: real)
    requires Accepted(bounds, counts, count, total)
    ensures (exists xs :: IsHistogram(xs, bounds, counts, count, total)) <==> Attainable(bounds, counts, count, total)
  {
    if Attainable(bounds, counts, count, total) {
      WitnessRealises(bounds, counts, count, total);
    }
    if xs :| IsHistogram(xs, bounds, counts, count, total) {
      SumIsWithinEdges(xs, bounds);
    }
  }

  /** One observation above a boundary, and a sum equal to that boundary: the check accepts it
      whatever the boundary, and no observation is both. */
  lemma EdgeSumSlipsThrough(edge: real)
    requires LegalNumber(edge)
    ensures Accepted([Finite(edge), Infinite], [0, 1], 1, edge)
    ensures !exists xs :: IsHistogram(xs, [Finite(edge), Infinite], [0, 1], 1, edge)
  {
    var bounds, counts := [Finite(edge), Infinite], [0, 1];
    WeighNothing(0);
    assert Below(bounds, 1) == edge && Weigh(edge, 1) == Weigh(edge, 0) + edge;
    assert Lower(bounds, counts, 1) == 0.0;
    assert Lower(bounds, counts, 2) == edge;
    assert Upper(bounds, counts, 1) == 0.0;
    assert Upper(bounds, counts, 2) == 0.0;
    RealisedExactly(bounds, counts, 1, edge);
  }

  /** A sum below every possible one, but within the tolerance. */
  lemma LowSumSlipsThrough()
    ensures Accepted([Finite(1.0), Infinite], [0, 1], 1, 0.9999999995)
    ensures !exists xs :: IsHistogram(xs, [Finite(1.0), Infinite], [0, 1], 1, 0.9999999995)
  {
    var bounds, counts, total := [Finite(1.0), Infinite], [0, 1], 0.9999999995;
    WeighNothing(0);
    assert Below(bounds, 1) == 1.0 && Weigh(1.0, 1) == Weigh(1.0, 0) + 1.0;
    assert Lower(bounds, counts, 1) == 0.0;
    assert Lower(bounds, counts, 2) == 1.0;
    assert Upper(bounds, counts, 1) == 0.0;
    assert Upper(bounds, counts, 2) == 0.0;
    RealisedExactly(bounds, counts, 1, total);
  }
}
