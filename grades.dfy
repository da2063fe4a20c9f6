/** The cache-miss computation of the elevation pass: for one physical edge, choose a
    sampling plan, ask the height service for heights, run the weighted-grade
    algorithm forward and over the reversed profile, and map the grades to buckets.
    The resampler, the height service and the weighted-grade algorithm are not
    modelled; they are supplied as the fields of an `Env`. */
module ElevationGrades {

  datatype Option<+T> = None | Some(value: T)

  /** A geographic point of an edge's shape. */
  datatype PointLL = PointLL(lng: real, lat: real)

  /** The four values `skadi::weighted_grade` returns:
      weighted grade, max up slope, max down slope, mean elevation. */
  datatype Grades = Grades(weighted: real, maxUp: real, maxDown: real, mean: real)

  /** The external collaborators of the cache-miss computation. */
  datatype Env = Env(
    resample: (seq<PointLL>, real) -> seq<PointLL>,  // resample_spherical_polyline
    heightsAt: seq<PointLL> -> seq<real>,            // sample::get_all
    weightedGrade: (seq<real>, real) -> Grades       // skadi::weighted_grade
  )

  /** One directed-edge record: the fields the pass reads, then the three it writes. */
  datatype DirectedEdge = DirectedEdge(
    length: nat,
    tunnel: bool,
    bridge: bool,
    ferry: bool,          // use() == Use::kFerry
    forward: bool,
    edgeInfoOffset: nat,
    weightedGrade: nat,
    maxUpSlope: real,
    maxDownSlope: real
  )

  /** A geo-attribute cache entry: the six-field tuple stored per edge-info offset. */
  datatype GeoAttributes = GeoAttributes(
    forwardGrade: nat,
    reverseGrade: nat,
    forwardMaxUp: real,
    forwardMaxDown: real,
    reverseMaxUp: real,
    reverseMaxDown: real
  )

  /** Which points are sampled and the interval handed to the grade algorithm. */
  datatype Plan = Plan(points: seq<PointLL>, interval: real)

  const PostingInterval: real := 60.0
  const MinimumInterval: real := 10.0
  /** The value `skadi::get_no_data_value()` reports for a missing height. */
  const NoDataValue: real := -32768.0
  /** The tile's own "no elevation" marker, `kNoElevationData`. */
  const NoElevationData: real := -500.0
  const Uint32Limit: int := 0x1_0000_0000

  /** The grades of an edge that is not sampled: the default tuple of zeros. */
  const Flat: Grades := Grades(0.0, 0.0, 0.0, 0.0)

  // ---------------------------------------------------------------------------
  // Bucket mapping

  /** The argument of the cast in `static_cast<uint32_t>(g * .6 + 6.5)`. */
  function BucketArgument(g: real): real { g * 0.6 + 6.5 }

  /** The cast from double to uint32 is defined exactly when the value truncated
      toward zero fits in 32 unsigned bits. */
  predicate BucketDefined(g: real) {
    -1.0 < BucketArgument(g) < Uint32Limit as real
  }

  /** The weighted-grade bucket: the cast truncates toward zero. */
  function Bucket(g: real): (b: nat)
    requires BucketDefined(g)
    ensures b < Uint32Limit
    ensures BucketArgument(g) >= 0.0 ==> b as real <= BucketArgument(g) < b as real + 1.0
    ensures BucketArgument(g) < 0.0 ==> b == 0
  {
    var x := BucketArgument(g);
    if x < 0.0 then 0 else x.Floor
  }

  /** The grade algorithm never yields a weighted grade outside the cast's domain. */
  ghost predicate GradesBucketable(env: Env) {
    forall hs: seq<real>, iv: real :: BucketDefined(env.weightedGrade(hs, iv).weighted)
  }

  lemma BucketLandmarks()
    ensures Bucket(0.0) == 6
    ensures Bucket(15.0) == 15
    ensures Bucket(-10.0) == 0
  {
  }

  /** A steeper weighted grade never gives a smaller bucket. */
  lemma BucketMonotone(g1: real, g2: real)
    requires BucketDefined(g1) && BucketDefined(g2)
    requires g1 <= g2
    ensures Bucket(g1) <= Bucket(g2)
  {
    var x1, x2 := BucketArgument(g1), BucketArgument(g2);
    assert x1 <= x2;
    if x1 >= 0.0 {
      assert (Bucket(g1) as real) <= x1 <= x2 < Bucket(g2) as real + 1.0;
    }
  }

  /** Weighted grades in the documented range -10..+15 land in buckets 0..15. */
  lemma BucketInCostingRange(g: real)
    requires -10.0 <= g <= 15.0
    ensures BucketDefined(g)
    ensures 0 <= Bucket(g) <= 15
  {
    assert 0.5 <= BucketArgument(g) <= 15.5;
  }

  // ---------------------------------------------------------------------------
  // Sampling plan and grades of one physical edge

  /** Tunnels and ferries are never sampled. */
  predicate Skipped(e: DirectedEdge) { e.tunnel || e.ferry }

  /** Short edges and bridges are sampled at their two ends only. */
  predicate EndpointsOnly(e: DirectedEdge) {
    (e.length as real) < PostingInterval * 3.0 || e.bridge
  }

  /** What the source needs of an edge's shape: its ends exist whenever they are sampled. */
  predicate ShapeUsable(e: DirectedEdge, shape: seq<PointLL>) {
    !Skipped(e) && EndpointsOnly(e) ==> |shape| > 0
  }

  function SamplingPlan(env: Env, e: DirectedEdge, shape: seq<PointLL>): (p: Plan)
    requires !Skipped(e) && ShapeUsable(e, shape)
    ensures EndpointsOnly(e) ==>
      p.points == [shape[0], shape[|shape| - 1]] && p.interval == e.length as real
    ensures !EndpointsOnly(e) ==>
      p.points == env.resample(shape, PostingInterval) && p.interval == PostingInterval
  {
    if EndpointsOnly(e) then Plan([shape[0], shape[|shape| - 1]], e.length as real)
    else Plan(env.resample(shape, PostingInterval), PostingInterval)
  }

  /** Whenever grades are kept (the edge is at least 10 m long), the interval handed
      to the grade algorithm is at least the minimum interval. */
  lemma KeptGradesUseMinimumInterval(env: Env, e: DirectedEdge, shape: seq<PointLL>)
    requires !Skipped(e) && ShapeUsable(e, shape)
    requires e.length as real >= MinimumInterval
    ensures SamplingPlan(env, e, shape).interval >= MinimumInterval
    ensures SamplingPlan(env, e, shape).interval == PostingInterval
            || SamplingPlan(env, e, shape).interval == e.length as real
  {
  }

  /** The sequence in reverse order. */
  function Reversed(s: seq<real>): (r: seq<real>)
    ensures |r| == |s|
    ensures forall k :: 0 <= k < |s| ==> r[k] == s[|s| - 1 - k]
  {
    seq(|s|, k requires 0 <= k < |s| => s[|s| - 1 - k])
  }

  lemma ReversedTwice(s: seq<real>)
    ensures Reversed(Reversed(s)) == s
  {
    var r := Reversed(Reversed(s));
    assert |r| == |s|;
    forall k | 0 <= k < |s| ensures r[k] == s[k] {
      assert Reversed(s)[|s| - 1 - k] == s[k];
    }
  }

  /** The forward and reverse grade tuples of one physical edge, as computed on a
      cache miss for the first directed edge seen with that edge-info offset. */
  datatype EdgeProfile = EdgeProfile(forward: Grades, reverse: Grades)

  function EdgeGrades(env: Env, e: DirectedEdge, shape: seq<PointLL>): (r: EdgeProfile)
    requires ShapeUsable(e, shape)
    ensures Skipped(e) ==> r == EdgeProfile(Flat, Flat)
    ensures (e.length as real) < MinimumInterval ==> r.forward == r.reverse
    ensures !Skipped(e) ==>
      var plan := SamplingPlan(env, e, shape);
      r.forward.mean == env.weightedGrade(env.heightsAt(plan.points), plan.interval).mean
  {
    if Skipped(e) then EdgeProfile(Flat, Flat)
    else
      var plan := SamplingPlan(env, e, shape);
      var heights := env.heightsAt(plan.points);
      var grades := env.weightedGrade(heights, plan.interval);
      if (e.length as real) < MinimumInterval then
        var kept := Grades(0.0, 0.0, 0.0, grades.mean);
        EdgeProfile(kept, kept)
      else
        EdgeProfile(grades, env.weightedGrade(Reversed(heights), plan.interval))
  }

  /** The cache entry built from an edge profile. */
  function ToAttributes(p: EdgeProfile): (a: GeoAttributes)
    requires BucketDefined(p.forward.weighted) && BucketDefined(p.reverse.weighted)
    ensures a.forwardGrade < Uint32Limit && a.reverseGrade < Uint32Limit
    ensures p.forward == p.reverse ==>
      a.forwardGrade == a.reverseGrade && a.forwardMaxUp == a.reverseMaxUp
      && a.forwardMaxDown == a.reverseMaxDown
  {
    GeoAttributes(Bucket(p.forward.weighted), Bucket(p.reverse.weighted),
                  p.forward.maxUp, p.forward.maxDown, p.reverse.maxUp, p.reverse.maxDown)
  }

  /** Every profile the computation yields can be bucketed. */
  lemma EdgeGradesBucketable(env: Env, e: DirectedEdge, shape: seq<PointLL>)
    requires GradesBucketable(env) && ShapeUsable(e, shape)
    ensures BucketDefined(EdgeGrades(env, e, shape).forward.weighted)
    ensures BucketDefined(EdgeGrades(env, e, shape).reverse.weighted)
  {
  }

  /** The cache entry of one physical edge. Unsampled and short edges get the flat
      entry: bucket 6 and zero slopes both ways. */
  function Attributes(env: Env, e: DirectedEdge, shape: seq<PointLL>): (a: GeoAttributes)
    requires GradesBucketable(env) && ShapeUsable(e, shape)
    ensures Skipped(e) || (e.length as real) < MinimumInterval ==>
      a == GeoAttributes(6, 6, 0.0, 0.0, 0.0, 0.0)
  {
    BucketLandmarks();
    EdgeGradesBucketable(env, e, shape);
    ToAttributes(EdgeGrades(env, e, shape))
  }

  /** The value handed to `set_mean_elevation`: the height service's no-data value
      becomes the tile's own no-elevation marker. */
  function StoredMean(mean: real): (r: real)
    ensures r != NoDataValue
    ensures mean != NoDataValue ==> r == mean
    ensures mean == NoDataValue ==> r == NoElevationData
  {
    if mean == NoDataValue then NoElevationData else mean
  }

  /** A tunnel or ferry edge gets the flat bucket in both directions, zero slopes, and
      a stored mean elevation of 0.0, not the no-elevation marker. */
  lemma SkippedEdgeIsFlat(env: Env, e: DirectedEdge, shape: seq<PointLL>)
    requires GradesBucketable(env)
    requires Skipped(e)
    ensures Attributes(env, e, shape) == GeoAttributes(6, 6, 0.0, 0.0, 0.0, 0.0)
    ensures StoredMean(EdgeGrades(env, e, shape).forward.mean) == 0.0
  {
  }

  /** An edge under 10 m gets the flat bucket and zero slopes in both directions but
      keeps the mean elevation of its two sampled end heights. */
  lemma ShortEdgeKeepsOnlyMean(env: Env, e: DirectedEdge, shape: seq<PointLL>)
    requires GradesBucketable(env) && ShapeUsable(e, shape)
    requires !Skipped(e) && (e.length as real) < MinimumInterval
    ensures |shape| > 0
    ensures Attributes(env, e, shape) == GeoAttributes(6, 6, 0.0, 0.0, 0.0, 0.0)
    ensures EdgeGrades(env, e, shape).forward.mean == EdgeGrades(env, e, shape).reverse.mean
    ensures EdgeGrades(env, e, shape).forward.mean
            == env.weightedGrade(env.heightsAt([shape[0], shape[|shape| - 1]]), e.length as real).mean
  {
    assert EndpointsOnly(e);
  }

  /** For an edge of 10 m or more, the reverse tuple is the grade algorithm rerun over
      the reversed heights with the same interval, not a negation of the forward one. */
  lemma ReverseIsRerunOnReversedHeights(env: Env, e: DirectedEdge, shape: seq<PointLL>)
    requires ShapeUsable(e, shape)
    requires !Skipped(e) && (e.length as real) >= MinimumInterval
    ensures var plan := SamplingPlan(env, e, shape);
            var heights := env.heightsAt(plan.points);
            && EdgeGrades(env, e, shape).forward == env.weightedGrade(heights, plan.interval)
            && EdgeGrades(env, e, shape).reverse == env.weightedGrade(Reversed(heights), plan.interval)
  {
  }

  // ---------------------------------------------------------------------------
  // The cache-miss computation, step by step

  /** `std::reverse` over the height buffer. */
  method ReverseInPlace(a: array<real>)
    modifies a
    ensures a[..] == Reversed(old(a[..]))
  {
    var lo, hi := 0, a.Length;
    while lo + 1 < hi
      invariant 0 <= lo <= hi <= a.Length && lo + hi == a.Length
      invariant forall k :: 0 <= k < lo ==> a[k] == old(a[a.Length - 1 - k])
      invariant forall k :: hi <= k < a.Length ==> a[k] == old(a[a.Length - 1 - k])
      invariant forall k :: lo <= k < hi ==> a[k] == old(a[k])
    {
      a[lo], a[hi - 1] := a[hi - 1], a[lo];
      lo, hi := lo + 1, hi - 1;
    }
  }

  /** Copies the sampled heights into a buffer the computation owns. */
  method HeightBuffer(heights: seq<real>) returns (a: array<real>)
    ensures fresh(a) && a[..] == heights
  {
    a := new real[|heights|];
    var i := 0;
    while i < |heights|
      invariant 0 <= i <= |heights|
      invariant a[..i] == heights[..i]
    {
      a[i] := heights[i];
      i := i + 1;
    }
  }

  /** Lines 65-113 of the builder: the grades of one physical edge, its cache entry, and
      the mean elevation that line 113 reads. */
  method ComputeEdgeAttributes(env: Env, e: DirectedEdge, shape: seq<PointLL>)
    returns (attrs: GeoAttributes, mean: real)
    requires GradesBucketable(env) && ShapeUsable(e, shape)
    ensures attrs == Attributes(env, e, shape)
    ensures mean == EdgeGrades(env, e, shape).forward.mean
  {
    var forwardGrades := Flat;
    var reverseGrades := Flat;
    if !e.tunnel && !e.ferry {
      var interval := PostingInterval;
      var resampled: seq<PointLL>;
      if (e.length as real) < PostingInterval * 3.0 || e.bridge {
        resampled := [shape[0], shape[|shape| - 1]];
        interval := e.length as real;
      } else {
        resampled := env.resample(shape, interval);
      }
      var heights := HeightBuffer(env.heightsAt(resampled));
      var grades := env.weightedGrade(heights[..], interval);
      if (e.length as real) < MinimumInterval {
        forwardGrades := Grades(0.0, 0.0, 0.0, grades.mean);
        reverseGrades := Grades(0.0, 0.0, 0.0, grades.mean);
      } else {
        forwardGrades := grades;
        ReverseInPlace(heights);
        reverseGrades := env.weightedGrade(heights[..], interval);
      }
    }
    attrs := GeoAttributes(Bucket(forwardGrades.weighted), Bucket(reverseGrades.weighted),
                           forwardGrades.maxUp, forwardGrades.maxDown,
                           reverseGrades.maxUp, reverseGrades.maxDown);
    mean := forwardGrades.mean;
  }
}
