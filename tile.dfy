/** The per-tile update: every directed edge of a tile is visited once in index order,
    the grades of each physical edge (identified by its edge-info offset) are
    computed once and cached, the mean elevation is stored once per offset, and each
    directed edge receives the forward or reverse half of its offset's entry. */
module TileElevation {
  import opened ElevationGrades

  /** A tile identifier: hierarchy level and tile index. */
  datatype GraphId = GraphId(level: nat, tileId: nat)

  /** The parts of a stored tile the pass reads and writes. */
  datatype TileData = TileData(
    edges: seq<DirectedEdge>,
    shapes: map<nat, seq<PointLL>>,     // edge-info shape by edge-info offset
    meanElevation: map<nat, real>,      // edge-info mean elevation by offset
    hasElevation: bool
  )

  /** Every directed edge refers to an edge-info record whose shape the pass can use. */
  ghost predicate WellFormed(t: TileData) {
    forall k :: 0 <= k < |t.edges| ==>
      t.edges[k].edgeInfoOffset in t.shapes
      && ShapeUsable(t.edges[k], t.shapes[t.edges[k].edgeInfoOffset])
  }

  /** The fields of a directed edge that the pass reads are the same in both. */
  predicate SameInputs(a: DirectedEdge, b: DirectedEdge) {
    a.(weightedGrade := 0, maxUpSlope := 0.0, maxDownSlope := 0.0)
    == b.(weightedGrade := 0, maxUpSlope := 0.0, maxDownSlope := 0.0)
  }

  /** Lines 122-128: the forward triple for a forward edge, the reverse triple otherwise. */
  function WriteBack(e: DirectedEdge, a: GeoAttributes): (r: DirectedEdge)
    ensures SameInputs(r, e)
    ensures r.weightedGrade == (if e.forward then a.forwardGrade else a.reverseGrade)
    ensures r.maxUpSlope == (if e.forward then a.forwardMaxUp else a.reverseMaxUp)
    ensures r.maxDownSlope == (if e.forward then a.forwardMaxDown else a.reverseMaxDown)
  {
    if e.forward then
      e.(weightedGrade := a.forwardGrade, maxUpSlope := a.forwardMaxUp, maxDownSlope := a.forwardMaxDown)
    else
      e.(weightedGrade := a.reverseGrade, maxUpSlope := a.reverseMaxUp, maxDownSlope := a.reverseMaxDown)
  }

  function Offsets(edges: seq<DirectedEdge>): (s: seq<nat>)
    ensures |s| == |edges|
    ensures forall k :: 0 <= k < |edges| ==> s[k] == edges[k].edgeInfoOffset
  {
    seq(|edges|, k requires 0 <= k < |edges| => edges[k].edgeInfoOffset)
  }

  /** The index at which `x` is first seen. */
  function FirstIndexOf(s: seq<nat>, x: nat): (r: nat)
    requires x in s
    ensures r < |s| && s[r] == x
    ensures forall k :: 0 <= k < r ==> s[k] != x
  {
    if s[0] == x then 0 else 1 + FirstIndexOf(s[1..], x)
  }

  /** The keys of `s` in the order they are first seen: the order of cache misses. */
  function Distinct(s: seq<nat>): seq<nat> {
    if |s| == 0 then []
    else
      var d := Distinct(s[..|s| - 1]);
      if s[|s| - 1] in d then d else d + [s[|s| - 1]]
  }

  predicate NoDuplicates<T(==)>(s: seq<T>) {
    forall i, j :: 0 <= i < j < |s| ==> s[i] != s[j]
  }

  /** Each key of `s` appears in `Distinct(s)` exactly once, and nothing else does. */
  lemma {:induction false} DistinctOncePerKey(s: seq<nat>)
    ensures forall x :: x in Distinct(s) <==> x in s
    ensures NoDuplicates(Distinct(s))
  {
    if |s| > 0 {
      var init := s[..|s| - 1];
      DistinctOncePerKey(init);
      assert s == init + [s[|s| - 1]];
    }
  }

  /** The edge whose flags choose the sampling plan for offset `off`: the first one seen. */
  function FirstEdgeWith(t: TileData, off: nat): (e: DirectedEdge)
    requires off in Offsets(t.edges)
    ensures e in t.edges && e.edgeInfoOffset == off
  {
    t.edges[FirstIndexOf(Offsets(t.edges), off)]
  }

  /** The cache entry computed for offset `off`. */
  function AttributesAt(env: Env, t: TileData, off: nat): (a: GeoAttributes)
    requires GradesBucketable(env) && WellFormed(t)
    requires off in Offsets(t.edges)
    ensures Skipped(FirstEdgeWith(t, off)) ==> a == GeoAttributes(6, 6, 0.0, 0.0, 0.0, 0.0)
  {
    Attributes(env, FirstEdgeWith(t, off), t.shapes[off])
  }

  /** The mean elevation stored for offset `off`. */
  function MeanAt(env: Env, t: TileData, off: nat): (m: real)
    requires WellFormed(t)
    requires off in Offsets(t.edges)
    ensures m != NoDataValue
    ensures Skipped(FirstEdgeWith(t, off)) ==> m == 0.0
  {
    StoredMean(EdgeGrades(env, FirstEdgeWith(t, off), t.shapes[off]).forward.mean)
  }

  /** The cache after the edges `[0, n)` have been visited. */
  function CacheUpTo(env: Env, t: TileData, n: nat): (c: map<nat, GeoAttributes>)
    requires GradesBucketable(env) && WellFormed(t)
    requires n <= |t.edges|
    ensures n == 0 ==> c == map[]
  {
    map off | off in Offsets(t.edges)[..n] :: AttributesAt(env, t, off)
  }

  /** The mean elevations written while visiting the edges `[0, n)`. */
  function MeansUpTo(env: Env, t: TileData, n: nat): (m: map<nat, real>)
    requires WellFormed(t)
    requires n <= |t.edges|
    ensures n == 0 ==> m == map[]
  {
    map off | off in Offsets(t.edges)[..n] :: MeanAt(env, t, off)
  }

  /** Directed edge `k` as the pass leaves it. */
  function EdgeAfter(env: Env, t: TileData, k: nat): DirectedEdge
    requires GradesBucketable(env) && WellFormed(t)
    requires k < |t.edges|
  {
    WriteBack(t.edges[k], AttributesAt(env, t, t.edges[k].edgeInfoOffset))
  }

  /** The edge array after the first `n` edges have been visited. */
  function EdgesUpTo(env: Env, t: TileData, n: nat): (r: seq<DirectedEdge>)
    requires GradesBucketable(env) && WellFormed(t)
    requires n <= |t.edges|
    ensures |r| == |t.edges|
  {
    seq(|t.edges|, k requires 0 <= k < |t.edges| =>
      if k < n then EdgeAfter(env, t, k) else t.edges[k])
  }

  /** Visiting edge `i` rewrites exactly that edge. */
  lemma EdgesStep(env: Env, t: TileData, i: nat)
    requires GradesBucketable(env) && WellFormed(t)
    requires i < |t.edges|
    ensures EdgesUpTo(env, t, i)[i := EdgeAfter(env, t, i)] == EdgesUpTo(env, t, i + 1)
  {
  }

  /** The tile as the pass leaves it. */
  function UpdatedTile(env: Env, t: TileData): (r: TileData)
    requires GradesBucketable(env) && WellFormed(t)
    ensures |r.edges| == |t.edges| && r.shapes == t.shapes && r.hasElevation
    ensures forall k :: 0 <= k < |t.edges| ==> SameInputs(r.edges[k], t.edges[k])
    ensures WellFormed(r)
  {
    var edges := EdgesUpTo(env, t, |t.edges|);
    assert forall k :: 0 <= k < |t.edges| ==> edges[k] == EdgeAfter(env, t, k);
    TileData(edges, t.shapes, t.meanElevation + MeansUpTo(env, t, |t.edges|), true)
  }

  /** After the pass the cache holds exactly the tile's edge-info offsets. */
  lemma CacheHoldsExactlyTileOffsets(env: Env, t: TileData)
    requires GradesBucketable(env) && WellFormed(t)
    ensures CacheUpTo(env, t, |t.edges|).Keys
            == set k | 0 <= k < |t.edges| :: t.edges[k].edgeInfoOffset
  {
    var keys := set k | 0 <= k < |t.edges| :: t.edges[k].edgeInfoOffset;
    var offs := Offsets(t.edges);
    assert offs[..|t.edges|] == offs;
    forall off | off in keys ensures off in offs {
      var k :| 0 <= k < |t.edges| && t.edges[k].edgeInfoOffset == off;
      assert offs[k] == off;
    }
  }

  /** Each edge carries the half of its own offset's entry chosen by its orientation, and
      two edges sharing an offset read one entry, computed from the first of them seen. */
  lemma EdgesReadTheirOffsetEntry(env: Env, t: TileData, i: nat, j: nat)
    requires GradesBucketable(env) && WellFormed(t)
    requires i < |t.edges| && j < |t.edges|
    requires t.edges[i].edgeInfoOffset == t.edges[j].edgeInfoOffset
    requires t.edges[i].forward && !t.edges[j].forward
    ensures var off := t.edges[i].edgeInfoOffset;
            var a := Attributes(env, FirstEdgeWith(t, off), t.shapes[off]);
            var r := UpdatedTile(env, t);
            && r.edges[i].weightedGrade == a.forwardGrade
            && r.edges[i].maxUpSlope == a.forwardMaxUp
            && r.edges[i].maxDownSlope == a.forwardMaxDown
            && r.edges[j].weightedGrade == a.reverseGrade
            && r.edges[j].maxUpSlope == a.reverseMaxUp
            && r.edges[j].maxDownSlope == a.reverseMaxDown
  {
    var offs := Offsets(t.edges);
    assert offs[..|t.edges|] == offs;
    assert offs[i] == t.edges[i].edgeInfoOffset;
  }

  /** Directed edges sharing an edge-info offset agree on the tunnel and ferry flags. */
  ghost predicate PairsAgree(t: TileData) {
    forall i, j ::
      0 <= i < |t.edges| && 0 <= j < |t.edges| && t.edges[i].edgeInfoOffset == t.edges[j].edgeInfoOffset
      ==> (t.edges[i].tunnel == t.edges[j].tunnel && t.edges[i].ferry == t.edges[j].ferry)
  }

  /** Tunnel and ferry edges end the pass with the flat bucket and zero slopes, and their
      edge-info record with a mean elevation of 0.0. */
  lemma TunnelAndFerryEdgesAreFlat(env: Env, t: TileData, k: nat)
    requires GradesBucketable(env) && WellFormed(t) && PairsAgree(t)
    requires k < |t.edges| && Skipped(t.edges[k])
    ensures UpdatedTile(env, t).edges[k].weightedGrade == 6
    ensures UpdatedTile(env, t).edges[k].maxUpSlope == 0.0
    ensures UpdatedTile(env, t).edges[k].maxDownSlope == 0.0
    ensures UpdatedTile(env, t).meanElevation[t.edges[k].edgeInfoOffset] == 0.0
  {
    var off := t.edges[k].edgeInfoOffset;
    var offs := Offsets(t.edges);
    assert offs[..|t.edges|] == offs;
    assert offs[k] == off;
    var first := FirstIndexOf(offs, off);
    assert Skipped(t.edges[first]);
    SkippedEdgeIsFlat(env, t.edges[first], t.shapes[off]);
    var u := UpdatedTile(env, t);
    assert u.edges[k] == EdgeAfter(env, t, k);
    assert off in MeansUpTo(env, t, |t.edges|);
  }

  // ---------------------------------------------------------------------------
  // The objects the pass works on

  /** The per-worker cache of geo attributes keyed by edge-info offset. */
  class GeoAttributeCache {
    var entries: map<nat, GeoAttributes>

    constructor ()
      ensures entries == map[]
    {
      entries := map[];
    }

    method Clear()
      modifies this
      ensures entries == map[]
    {
      entries := map[];
    }

    method Find(off: nat) returns (r: Option<GeoAttributes>)
      ensures r.Some? <==> off in entries
      ensures r.Some? ==> r.value == entries[off]
    {
      r := if off in entries then Some(entries[off]) else None;
    }

    /** Like `unordered_map::insert`: an existing entry is kept. */
    method Insert(off: nat, a: GeoAttributes) returns (stored: GeoAttributes)
      modifies this
      ensures entries == if off in old(entries) then old(entries) else old(entries)[off := a]
      ensures off in entries && stored == entries[off]
    {
      if off !in entries {
        entries := entries[off := a];
      }
      stored := entries[off];
    }
  }

  /** A tile opened for mutation. */
  class TileBuilder {
    const edges: array<DirectedEdge>
    const shapes: map<nat, seq<PointLL>>
    var meanElevation: map<nat, real>
    var hasElevation: bool
    /** The offsets passed to `SetMeanElevation`, in call order. */
    ghost var meanWrites: seq<nat>

    function Data(): TileData
      reads this, edges
    {
      TileData(edges[..], shapes, meanElevation, hasElevation)
    }

    constructor Open(t: TileData)
      ensures fresh(edges) && Data() == t && meanWrites == []
    {
      edges := new DirectedEdge[|t.edges|](k requires 0 <= k < |t.edges| => t.edges[k]);
      shapes := t.shapes;
      meanElevation := t.meanElevation;
      hasElevation := t.hasElevation;
      meanWrites := [];
    }

    method SetHasElevation(b: bool)
      modifies this`hasElevation
      ensures hasElevation == b
    {
      hasElevation := b;
    }

    method SetMeanElevation(off: nat, value: real)
      modifies this`meanElevation, this`meanWrites
      ensures meanElevation == old(meanElevation)[off := value]
      ensures meanWrites == old(meanWrites) + [off]
    {
      meanElevation := meanElevation[off := value];
      meanWrites := meanWrites + [off];
    }
  }

  /** The tile directory: tiles by id, and the ids persisted, in order. */
  class TileStore {
    var tiles: map<GraphId, TileData>
    ghost var stored: seq<GraphId>

    constructor (tiles: map<GraphId, TileData>)
      ensures this.tiles == tiles && stored == []
    {
      this.tiles := tiles;
      stored := [];
    }

    method StoreTileData(id: GraphId, t: TileData)
      modifies this
      ensures tiles == old(tiles)[id := t]
      ensures stored == old(stored) + [id]
    {
      tiles := tiles[id := t];
      stored := stored + [id];
    }
  }

  // ---------------------------------------------------------------------------
  // add_elevations_to_single_tile

  /** The offsets of the edges `[0, i + 1)` are those of `[0, i)` and edge `i`'s. */
  lemma PrefixGrows(s: seq<nat>, i: nat)
    requires i < |s|
    ensures s[..i + 1] == s[..i] + [s[i]]
    ensures forall x :: x in s[..i + 1] <==> x in s[..i] || x == s[i]
  {
    assert s[..i + 1] == s[..i] + [s[i]];
  }

  /** An offset not among the edges `[0, i)` is first seen at edge `i`. */
  lemma FirstSeenAt(t: TileData, i: nat)
    requires i < |t.edges|
    requires t.edges[i].edgeInfoOffset !in Offsets(t.edges)[..i]
    ensures FirstEdgeWith(t, t.edges[i].edgeInfoOffset) == t.edges[i]
  {
    var offs := Offsets(t.edges);
    var first := FirstIndexOf(offs, t.edges[i].edgeInfoOffset);
    assert first == i;
  }

  /** Visiting edge `i` adds its offset to the cache when it is new, and only then. */
  lemma CacheStep(env: Env, t: TileData, i: nat)
    requires GradesBucketable(env) && WellFormed(t)
    requires i < |t.edges|
    ensures var off := t.edges[i].edgeInfoOffset;
            CacheUpTo(env, t, i + 1)
            == if off in CacheUpTo(env, t, i) then CacheUpTo(env, t, i)
               else CacheUpTo(env, t, i)[off := AttributesAt(env, t, off)]
  {
    PrefixGrows(Offsets(t.edges), i);
  }

  /** Visiting edge `i` writes its offset's mean when the offset is new, and only then. */
  lemma MeansStep(env: Env, t: TileData, i: nat)
    requires WellFormed(t)
    requires i < |t.edges|
    ensures var off := t.edges[i].edgeInfoOffset;
            MeansUpTo(env, t, i + 1)
            == if off in MeansUpTo(env, t, i) then MeansUpTo(env, t, i)
               else MeansUpTo(env, t, i)[off := MeanAt(env, t, off)]
  {
    PrefixGrows(Offsets(t.edges), i);
  }

  /** Before edge `n` is visited, the cache and the written means cover exactly the
      offsets of the edges `[0, n)`. */
  lemma UpToKeys(env: Env, t: TileData, n: nat)
    requires GradesBucketable(env) && WellFormed(t)
    requires n <= |t.edges|
    ensures forall off :: off in CacheUpTo(env, t, n) <==> off in Offsets(t.edges)[..n]
    ensures forall off :: off in MeansUpTo(env, t, n) <==> off in Offsets(t.edges)[..n]
  {
  }

  lemma UnionThenUpdate(m: map<nat, real>, u: map<nat, real>, k: nat, v: real)
    ensures (m + u)[k := v] == m + u[k := v]
  {
  }

  /** Visiting edge `i` logs its offset when it is new, and only then. */
  lemma DistinctStep(s: seq<nat>, i: nat)
    requires i < |s|
    ensures Distinct(s[..i + 1])
            == if s[i] in s[..i] then Distinct(s[..i]) else Distinct(s[..i]) + [s[i]]
  {
    assert s[..i + 1][..i] == s[..i];
    DistinctOncePerKey(s[..i]);
  }

  /** One iteration of the edge loop (lines 57-128): look the edge's offset up in the
      cache, compute and store its attributes and mean elevation on a miss, then write
      the forward or reverse triple into the edge. */
  method VisitEdge(tile: TileBuilder, cache: GeoAttributeCache, env: Env, ghost t: TileData, i: nat)
    requires GradesBucketable(env) && WellFormed(t)
    requires i < |t.edges| == tile.edges.Length
    requires tile.shapes == t.shapes && tile.edges[i] == t.edges[i]
    requires cache.entries == CacheUpTo(env, t, i)
    requires tile.meanElevation == t.meanElevation + MeansUpTo(env, t, i)
    requires tile.meanWrites == Distinct(Offsets(t.edges)[..i])
    modifies tile`meanElevation, tile`meanWrites, tile.edges, cache
    ensures tile.edges[..] == old(tile.edges[..])[i := EdgeAfter(env, t, i)]
    ensures cache.entries == CacheUpTo(env, t, i + 1)
    ensures tile.meanElevation == t.meanElevation + MeansUpTo(env, t, i + 1)
    ensures tile.meanWrites == Distinct(Offsets(t.edges)[..i + 1])
  {
    ghost var prior := tile.edges[..];
    var edge := tile.edges[i];
    var off := edge.edgeInfoOffset;
    var found := cache.Find(off);
    if found.None? {
      UpToKeys(env, t, i);
      var stored := CacheMiss(tile, cache, env, t, i);
      found := Some(stored);
    } else {
      CacheHit(env, t, i);
    }
    tile.edges[i] := WriteBack(edge, found.value);
    assert tile.edges[..] == prior[i := EdgeAfter(env, t, i)];
  }

  /** Visiting an edge whose offset is already cached changes neither the cache, nor the
      written means, nor the log of mean writes, and the cached entry is its offset's. */
  lemma CacheHit(env: Env, t: TileData, i: nat)
    requires GradesBucketable(env) && WellFormed(t)
    requires i < |t.edges|
    requires t.edges[i].edgeInfoOffset in CacheUpTo(env, t, i)
    ensures CacheUpTo(env, t, i + 1) == CacheUpTo(env, t, i)
    ensures MeansUpTo(env, t, i + 1) == MeansUpTo(env, t, i)
    ensures Distinct(Offsets(t.edges)[..i + 1]) == Distinct(Offsets(t.edges)[..i])
    ensures CacheUpTo(env, t, i)[t.edges[i].edgeInfoOffset]
            == AttributesAt(env, t, t.edges[i].edgeInfoOffset)
  {
    var offs := Offsets(t.edges);
    assert offs[i] == t.edges[i].edgeInfoOffset;
    UpToKeys(env, t, i);
    CacheStep(env, t, i);
    MeansStep(env, t, i);
    DistinctStep(offs, i);
  }

  /** Lines 65-117: the first time an offset is seen, compute its attributes, insert
      them into the cache, and store the edge-info mean elevation. */
  method CacheMiss(tile: TileBuilder, cache: GeoAttributeCache, env: Env, ghost t: TileData, i: nat)
    returns (stored: GeoAttributes)
    requires GradesBucketable(env) && WellFormed(t)
    requires i < |t.edges| == tile.edges.Length
    requires tile.shapes == t.shapes && tile.edges[i] == t.edges[i]
    requires t.edges[i].edgeInfoOffset !in Offsets(t.edges)[..i]
    requires cache.entries == CacheUpTo(env, t, i)
    requires tile.meanElevation == t.meanElevation + MeansUpTo(env, t, i)
    requires tile.meanWrites == Distinct(Offsets(t.edges)[..i])
    modifies tile`meanElevation, tile`meanWrites, cache
    ensures stored == AttributesAt(env, t, t.edges[i].edgeInfoOffset)
    ensures cache.entries == CacheUpTo(env, t, i + 1)
    ensures tile.meanElevation == t.meanElevation + MeansUpTo(env, t, i + 1)
    ensures tile.meanWrites == Distinct(Offsets(t.edges)[..i + 1])
  {
    var edge := tile.edges[i];
    var off := edge.edgeInfoOffset;
    ghost var offs := Offsets(t.edges);
    assert offs[i] == off;
    CacheStep(env, t, i);
    MeansStep(env, t, i);
    DistinctStep(offs, i);
    UpToKeys(env, t, i);
    FirstSeenAt(t, i);
    var attrs, mean := ComputeEdgeAttributes(env, edge, tile.shapes[off]);
    stored := cache.Insert(off, attrs);
    tile.SetMeanElevation(off, StoredMean(mean));
    UnionThenUpdate(t.meanElevation, MeansUpTo(env, t, i), off, MeanAt(env, t, off));
  }

  /** A tile whose every edge and every written mean is as the pass leaves it is the
      updated tile. */
  lemma PassComplete(env: Env, t: TileData, u: TileData)
    requires GradesBucketable(env) && WellFormed(t)
    requires |u.edges| == |t.edges| && u.shapes == t.shapes && u.hasElevation
    requires forall k :: 0 <= k < |t.edges| ==> u.edges[k] == EdgeAfter(env, t, k)
    requires u.meanElevation == t.meanElevation + MeansUpTo(env, t, |t.edges|)
    ensures u == UpdatedTile(env, t)
  {
    var offs := Offsets(t.edges);
    assert offs[..|t.edges|] == offs;
    assert u.edges == UpdatedTile(env, t).edges;
  }

  /** Lines 55-129: the edge loop, over every index in `[0, count)` in order. */
  method UpdateEdges(tile: TileBuilder, cache: GeoAttributeCache, env: Env, ghost t: TileData)
    requires GradesBucketable(env) && WellFormed(t)
    requires tile.edges[..] == t.edges && tile.shapes == t.shapes
    requires tile.meanElevation == t.meanElevation && tile.meanWrites == []
    requires cache.entries == map[]
    modifies tile`meanElevation, tile`meanWrites, tile.edges, cache
    ensures forall k :: 0 <= k < |t.edges| ==> tile.edges[k] == EdgeAfter(env, t, k)
    ensures cache.entries == CacheUpTo(env, t, |t.edges|)
    ensures tile.meanElevation == t.meanElevation + MeansUpTo(env, t, |t.edges|)
    ensures tile.meanWrites == Distinct(Offsets(t.edges))
  {
    ghost var offs := Offsets(t.edges);
    var count := tile.edges.Length;
    var i := 0;
    while i < count
      invariant 0 <= i <= count == |t.edges|
      invariant tile.edges[..] == EdgesUpTo(env, t, i)
      invariant cache.entries == CacheUpTo(env, t, i)
      invariant tile.meanElevation == t.meanElevation + MeansUpTo(env, t, i)
      invariant tile.meanWrites == Distinct(offs[..i])
    {
      EdgesStep(env, t, i);
      VisitEdge(tile, cache, env, t, i);
      i := i + 1;
    }
    assert offs[..count] == offs;
    assert forall k :: 0 <= k < count ==> tile.edges[k] == tile.edges[..][k];
  }

  /** The whole per-tile routine: open the tile, mark it as having elevation, clear the
      cache, run the edge loop and store the tile. `writes` is the order in which the
      edge-info mean elevations were written. */
  method AddElevationsToSingleTile(store: TileStore, cache: GeoAttributeCache, env: Env, id: GraphId)
    returns (ghost writes: seq<nat>)
    requires GradesBucketable(env)
    requires id in store.tiles && WellFormed(store.tiles[id])
    modifies store, cache
    ensures store.tiles == old(store.tiles)[id := UpdatedTile(env, old(store.tiles)[id])]
    ensures store.stored == old(store.stored) + [id]
    ensures cache.entries == CacheUpTo(env, old(store.tiles)[id], |old(store.tiles)[id].edges|)
    ensures NoDuplicates(writes)
    ensures forall off :: off in writes <==> off in Offsets(old(store.tiles)[id].edges)
    ensures writes == Distinct(Offsets(old(store.tiles)[id].edges))
  {
    ghost var t := store.tiles[id];
    var tile := new TileBuilder.Open(store.tiles[id]);
    tile.SetHasElevation(true);
    cache.Clear();
    UpdateEdges(tile, cache, env, t);
    writes := tile.meanWrites;
    DistinctOncePerKey(Offsets(t.edges));
    var updated := tile.Data();
    PassComplete(env, t, updated);
    store.StoreTileData(id, updated);
  }

  // ---------------------------------------------------------------------------
  // Running the pass again

  /** Edges with the same inputs get the same grades from the same shape. */
  lemma SameInputsSameAttributes(env: Env, a: DirectedEdge, b: DirectedEdge, shape: seq<PointLL>)
    requires GradesBucketable(env) && SameInputs(a, b) && ShapeUsable(a, shape)
    ensures ShapeUsable(b, shape)
    ensures EdgeGrades(env, a, shape) == EdgeGrades(env, b, shape)
    ensures Attributes(env, a, shape) == Attributes(env, b, shape)
  {
    var a0 := a.(weightedGrade := 0, maxUpSlope := 0.0, maxDownSlope := 0.0);
    var b0 := b.(weightedGrade := 0, maxUpSlope := 0.0, maxDownSlope := 0.0);
    assert a0.length == b0.length && a0.tunnel == b0.tunnel;
    assert a0.bridge == b0.bridge && a0.ferry == b0.ferry;
  }

  /** The updated tile computes the same entry and mean for every offset. */
  lemma UpdatedTileSameEntries(env: Env, t: TileData, off: nat)
    requires GradesBucketable(env) && WellFormed(t)
    requires off in Offsets(t.edges)
    ensures var u := UpdatedTile(env, t);
            && Offsets(u.edges) == Offsets(t.edges)
            && AttributesAt(env, u, off) == AttributesAt(env, t, off)
            && MeanAt(env, u, off) == MeanAt(env, t, off)
  {
    var u := UpdatedTile(env, t);
    assert Offsets(u.edges) == Offsets(t.edges);
    var first := FirstIndexOf(Offsets(t.edges), off);
    assert FirstEdgeWith(u, off) == u.edges[first];
    SameInputsSameAttributes(env, t.edges[first], u.edges[first], t.shapes[off]);
  }

  /** Each edge of the updated tile is already as the pass would leave it. */
  lemma UpdatedEdgeStable(env: Env, t: TileData, k: nat)
    requires GradesBucketable(env) && WellFormed(t)
    requires k < |t.edges|
    ensures EdgeAfter(env, UpdatedTile(env, t), k) == UpdatedTile(env, t).edges[k]
  {
    var u := UpdatedTile(env, t);
    var off := t.edges[k].edgeInfoOffset;
    assert Offsets(t.edges)[k] == off;
    UpdatedTileSameEntries(env, t, off);
    assert u.edges[k] == EdgeAfter(env, t, k);
  }

  /** The updated tile writes the same means as the original. */
  lemma UpdatedMeansStable(env: Env, t: TileData)
    requires GradesBucketable(env) && WellFormed(t)
    ensures MeansUpTo(env, UpdatedTile(env, t), |t.edges|) == MeansUpTo(env, t, |t.edges|)
  {
    var u := UpdatedTile(env, t);
    var n := |t.edges|;
    var offs := Offsets(t.edges);
    assert Offsets(u.edges) == offs by {
      forall k | 0 <= k < n ensures u.edges[k].edgeInfoOffset == t.edges[k].edgeInfoOffset {
        assert SameInputs(u.edges[k], t.edges[k]);
      }
    }
    assert offs[..n] == offs;
    var mu, mt := MeansUpTo(env, u, n), MeansUpTo(env, t, n);
    UpToKeys(env, u, n);
    UpToKeys(env, t, n);
    assert mu.Keys == mt.Keys;
    forall off | off in mt ensures mu[off] == mt[off] {
      UpdatedTileSameEntries(env, t, off);
    }
    SameEntriesSameMap(mu, mt);
  }

  lemma SameEntriesSameMap(a: map<nat, real>, b: map<nat, real>)
    requires a.Keys == b.Keys
    requires forall k :: k in b ==> a[k] == b[k]
    ensures a == b
  {
  }

  /** Running the pass over a tile it has already updated changes nothing. */
  lemma UpdatedTileIdempotent(env: Env, t: TileData)
    requires GradesBucketable(env) && WellFormed(t)
    ensures UpdatedTile(env, UpdatedTile(env, t)) == UpdatedTile(env, t)
  {
    var u := UpdatedTile(env, t);
    var v := UpdatedTile(env, u);
    forall k | 0 <= k < |t.edges| ensures v.edges[k] == u.edges[k] {
      UpdatedEdgeStable(env, t, k);
    }
    assert v.edges == u.edges;
    UpdatedMeansStable(env, t);
    var m := MeansUpTo(env, t, |t.edges|);
    assert v.meanElevation == (t.meanElevation + m) + m;
  }

  /** The computation and the mean-elevation write happen once per distinct offset, in
      the order the offsets are first seen: stated of the call log the pass leaves. */
  lemma MeanWrittenOncePerOffset(t: TileData)
    ensures NoDuplicates(Distinct(Offsets(t.edges)))
    ensures forall off :: off in Distinct(Offsets(t.edges))
                          <==> exists k :: 0 <= k < |t.edges| && t.edges[k].edgeInfoOffset == off
  {
    var offs := Offsets(t.edges);
    DistinctOncePerKey(offs);
    forall off | off in offs ensures exists k :: 0 <= k < |t.edges| && t.edges[k].edgeInfoOffset == off {
      var k :| 0 <= k < |offs| && offs[k] == off;
    }
  }
}
