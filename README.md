# Elevation pass of the tile builder

This project models the elevation pass of Valhalla's tile builder (`mjolnir`) in Dafny and proves properties of it.

For one tile, `add_elevations_to_single_tile` does the following:

- It marks the tile as having elevation and clears a per-worker cache keyed by the edge-info offset.
- It visits every directed-edge record once, in index order.
- The first time an offset is seen, it computes that physical edge's grades:
  - tunnels and ferries are not sampled;
  - short edges (under 180 m) and bridges are sampled at their two ends, with the edge length as the interval;
  - every other edge is resampled every 60 m;
  - edges under 10 m keep only the mean elevation;
  - the reverse grades are the grade algorithm rerun over the reversed heights.
- It maps each weighted grade to a bucket with `static_cast<uint32_t>(g * .6 + 6.5)`, caches the six-field entry, and stores the edge-info mean elevation once.
- Each directed edge then receives the forward or reverse half of its offset's entry.

A worker drains a queue of tile ids from the front and runs the per-tile routine on each tile.

The model has three modules:

- `ElevationGrades` (grades.dfy) holds the computation done on a cache miss. There are three collaborators: the spherical resampler, the height service and the weighted-grade algorithm. They are function-valued fields of an `Env` and are not modelled beyond their types.
- `TileElevation` (tile.dfy) holds three classes:
  - the tile being updated, `TileBuilder`, whose edge records are an `array` mutated in place;
  - the cache, `GeoAttributeCache`;
  - the tile directory, `TileStore`.

  It also holds the edge loop, which is proved against a closed-form specification, `UpdatedTile`:
  - the cache after `n` edges is `CacheUpTo(n)`;
  - the means written are `MeansUpTo(n)`;
  - the order of mean writes is `Distinct(offsets[..n])`.
- `ElevationWorker` (worker.dfy) holds the queue drain. Its specification, `DrainAll`, is the fold of `UpdatedTile` over the queue.

A tunnel or ferry edge is not sampled, but its edge-info mean is still written. The default tuple of zeros at line 70 reaches `set_mean_elevation` at lines 113-117. So the stored mean is 0.0, not `kNoElevationData`, and `SkippedEdgeIsFlat` and `TunnelAndFerryEdgesAreFlat` prove that value.

Two points about the cast:

- `static_cast<uint32_t>` of a double truncates toward zero. It is defined exactly when the truncated value fits in 32 unsigned bits, that is when -1 < x < 2^32. `Bucket` requires this.
- Every caller relies on `GradesBucketable(env)`: the grade algorithm's weighted grades stay inside that domain.

## Model

| member | source | states |
|---|---|---|
| ElevationGrades.Bucket | src/mjolnir/elevationbuilder.cc:103-104 | the bucket fits in 32 bits; for a non-negative argument it is the floor of g*0.6+6.5; an argument in (-1, 0) truncates to 0 |
| ElevationGrades.BucketLandmarks | src/mjolnir/elevationbuilder.cc:103-104 | grade 0 gives the flat bucket 6, grade 15 gives 15, grade -10 gives 0 |
| ElevationGrades.BucketMonotone | src/mjolnir/elevationbuilder.cc:103-104 | a steeper weighted grade never gives a smaller bucket |
| ElevationGrades.BucketInCostingRange | src/mjolnir/elevationbuilder.cc:83-88 | a weighted grade in the documented range -10..15 is castable and lands in buckets 0..15 |
| ElevationGrades.SamplingPlan | src/mjolnir/elevationbuilder.cc:73-81 | short edges (under 3×60 m) and bridges sample exactly the shape's first and last points with the edge length as interval; all others sample resample(shape, 60) with interval 60 |
| ElevationGrades.KeptGradesUseMinimumInterval | src/mjolnir/elevationbuilder.cc:74-81 | when grades are kept (length at least 10 m) the interval handed to the grade algorithm is at least 10 m, and it is either 60 or the edge length |
| ElevationGrades.EdgeGrades | src/mjolnir/elevationbuilder.cc:69-100 | a tunnel or ferry edge gets the zero tuple both ways; an edge under 10 m gets equal forward and reverse tuples; a sampled edge's forward mean is the mean of the grade run over its plan's heights, whatever its length |
| ElevationGrades.ToAttributes | src/mjolnir/elevationbuilder.cc:103-109 | both buckets fit in 32 bits; a profile whose forward and reverse tuples agree gives an entry whose forward and reverse halves agree |
| ElevationGrades.Attributes | src/mjolnir/elevationbuilder.cc:69-109 | a tunnel, a ferry or an edge under 10 m gets the flat entry: bucket 6 and zero slopes in both directions |
| ElevationGrades.EdgeGradesBucketable | src/mjolnir/elevationbuilder.cc:103-104 | both weighted grades of every edge profile are inside the cast's domain |
| ElevationGrades.StoredMean | src/mjolnir/elevationbuilder.cc:113-117 | the height service's no-data value becomes `kNoElevationData` and never reaches the tile; any other mean is stored unchanged |
| ElevationGrades.SkippedEdgeIsFlat | src/mjolnir/elevationbuilder.cc:70-72 | a tunnel or ferry edge gets bucket 6 in both directions, all four slopes 0, and a stored mean of 0.0 (not the no-elevation marker) |
| ElevationGrades.ShortEdgeKeepsOnlyMean | src/mjolnir/elevationbuilder.cc:89-92 | an edge under 10 m gets bucket 6 and zero slopes both ways, and both directions keep the mean of the grade run over its two end heights with the length as interval |
| ElevationGrades.ReverseIsRerunOnReversedHeights | src/mjolnir/elevationbuilder.cc:94-98 | for an edge of 10 m or more, forward is the grade run over the sampled heights and reverse is the grade run over the reversed heights with the same interval (not a negation of forward); `ComputeEdgeAttributes` with `ReverseInPlace` proves the step-by-step reversal yields it |
| ElevationGrades.ReversedTwice | src/mjolnir/elevationbuilder.cc:97 | reversing the height profile twice gives it back |
| ElevationGrades.ReverseInPlace | src/mjolnir/elevationbuilder.cc:97 | the in-place swap loop leaves the buffer as the reverse of its old contents |
| ElevationGrades.HeightBuffer | src/mjolnir/elevationbuilder.cc:87 | the returned buffer is fresh and holds the sampled heights |
| ElevationGrades.ComputeEdgeAttributes | src/mjolnir/elevationbuilder.cc:65-113 | the step-by-step computation yields the cache entry of the closed-form policy and its forward mean |
| TileElevation.FirstIndexOf | src/mjolnir/elevationbuilder.cc:63-64 | the result indexes the offset and no earlier index holds it: the edge at which an offset misses the cache |
| TileElevation.DistinctOncePerKey | src/mjolnir/elevationbuilder.cc:105-118 | the first-seen order of offsets contains each offset of the sequence once and nothing else |
| TileElevation.WriteBack | src/mjolnir/elevationbuilder.cc:122-128 | only the three grade fields change; a forward edge gets entry fields (0, 2, 3), a reverse edge fields (1, 4, 5) |
| TileElevation.FirstEdgeWith | src/mjolnir/elevationbuilder.cc:63-66 | the edge whose flags and length choose the plan for an offset is an edge of the tile carrying that offset |
| TileElevation.AttributesAt | src/mjolnir/elevationbuilder.cc:63-110 | an offset whose first edge is a tunnel or ferry gets the flat entry |
| TileElevation.MeanAt | src/mjolnir/elevationbuilder.cc:112-117 | the mean stored for an offset is never the no-data value, and is 0.0 when its first edge is a tunnel or ferry |
| TileElevation.CacheUpTo | src/mjolnir/elevationbuilder.cc:51 | the cache is empty before any edge is visited |
| TileElevation.MeansUpTo | src/mjolnir/elevationbuilder.cc:112-117 | no mean is written before any edge is visited |
| TileElevation.UpToKeys | src/mjolnir/elevationbuilder.cc:63-117 | after `n` edges, the cache and the written means have as keys exactly the offsets of edges `[0, n)` |
| TileElevation.UpdatedTile | src/mjolnir/elevationbuilder.cc:46-129 | the updated tile has as many edges, the same shapes, the elevation flag set, every edge unchanged except its three grade fields, and stays well formed |
| TileElevation.CacheHoldsExactlyTileOffsets | src/mjolnir/elevationbuilder.cc:51-64 | after the pass the cache's keys are exactly the set of the tile's edge-info offsets |
| TileElevation.EdgesReadTheirOffsetEntry | src/mjolnir/elevationbuilder.cc:120-128 | a forward edge gets fields (0, 2, 3) and a reverse edge fields (1, 4, 5) of one shared entry, computed from the first edge seen with that offset |
| TileElevation.TunnelAndFerryEdgesAreFlat | src/mjolnir/elevationbuilder.cc:70-72 | provided the edges sharing an offset agree on the tunnel and ferry flags (`PairsAgree`), a tunnel or ferry edge of the updated tile has bucket 6 and zero slopes, and its offset's stored mean is 0.0; without that premise the entry comes from whichever edge with the offset is seen first |
| TileElevation.GeoAttributeCache.Clear | src/mjolnir/elevationbuilder.cc:51 | the cache is empty |
| TileElevation.GeoAttributeCache.Find | src/mjolnir/elevationbuilder.cc:63-64 | found exactly when the offset is a key, with that key's entry |
| TileElevation.GeoAttributeCache.Insert | src/mjolnir/elevationbuilder.cc:105-110 | inserts only when the key is absent and returns the entry now stored under the key |
| TileElevation.TileBuilder.Open | src/mjolnir/elevationbuilder.cc:42 | the opened tile's edge array is fresh and its contents equal the stored tile |
| TileElevation.TileBuilder.SetHasElevation | src/mjolnir/elevationbuilder.cc:46 | sets only the elevation flag |
| TileElevation.TileBuilder.SetMeanElevation | src/mjolnir/elevationbuilder.cc:114-117 | updates the offset's mean and logs the offset written |
| TileElevation.TileStore.StoreTileData | src/mjolnir/elevationbuilder.cc:132 | replaces the tile under its id and logs the id as persisted |
| TileElevation.FirstSeenAt | src/mjolnir/elevationbuilder.cc:63-66 | an offset absent from the edges before `i` has edge `i` as the edge whose flags choose its plan |
| TileElevation.CacheStep | src/mjolnir/elevationbuilder.cc:63-110 | visiting an edge adds its offset's entry to the cache exactly when the offset is new |
| TileElevation.MeansStep | src/mjolnir/elevationbuilder.cc:112-117 | visiting an edge writes its offset's mean exactly when the offset is new |
| TileElevation.DistinctStep | src/mjolnir/elevationbuilder.cc:114 | visiting an edge appends its offset to the write log exactly when the offset is new |
| TileElevation.CacheHit | src/mjolnir/elevationbuilder.cc:63 | on a hit the cache, the written means and the write log are unchanged, and the cached entry is the offset's own |
| TileElevation.CacheMiss | src/mjolnir/elevationbuilder.cc:64-118 | on a miss the entry computed is the offset's policy entry, and the cache, means and log advance by that offset |
| TileElevation.VisitEdge | src/mjolnir/elevationbuilder.cc:56-128 | one iteration rewrites exactly edge `i` to its updated form, and the cache, means and log advance to the `i + 1` state |
| TileElevation.PassComplete | src/mjolnir/elevationbuilder.cc:55-129 | a tile whose every edge and written mean is as the loop leaves them is the updated tile |
| TileElevation.UpdateEdges | src/mjolnir/elevationbuilder.cc:55-129 | every index in [0, count) is rewritten to its updated edge; the cache holds one entry per offset; each offset's mean is written once, in first-seen order |
| TileElevation.AddElevationsToSingleTile | src/mjolnir/elevationbuilder.cc:36-132 | the stored tile becomes the updated tile and is persisted once; the cache ends holding the tile's entries; the offsets passed to `SetMeanElevation` are, in call order, the tile's offsets in first-seen order, each once and no other |
| TileElevation.SameInputsSameAttributes | src/mjolnir/elevationbuilder.cc:65-109 | the entry depends only on the fields the pass reads, not on the grade fields it writes |
| TileElevation.UpdatedEdgeStable | src/mjolnir/elevationbuilder.cc:120-128 | every edge of an updated tile is already as a second pass would write it |
| TileElevation.UpdatedMeansStable | src/mjolnir/elevationbuilder.cc:112-117 | a second pass over an updated tile writes the same means |
| TileElevation.UpdatedTileIdempotent | src/mjolnir/elevationbuilder.cc:36-132 | running the pass over a tile it has already updated changes nothing |
| TileElevation.MeanWrittenOncePerOffset | src/mjolnir/elevationbuilder.cc:105-118 | the write log has no duplicates and holds exactly the offsets that some edge of the tile carries |
| ElevationWorker.TaskQueue.constructor | src/mjolnir/elevationbuilder.cc:146 | the queue holds the given ids |
| ElevationWorker.TaskQueue.Empty | src/mjolnir/elevationbuilder.cc:161 | true exactly when no id is queued |
| ElevationWorker.TaskQueue.Front | src/mjolnir/elevationbuilder.cc:166 | the first queued id |
| ElevationWorker.TaskQueue.PopFront | src/mjolnir/elevationbuilder.cc:167 | removes exactly the first id |
| ElevationWorker.DrainAll | src/mjolnir/elevationbuilder.cc:159-171 | draining the queue keeps the set of stored tile ids |
| ElevationWorker.DrainFront | src/mjolnir/elevationbuilder.cc:159-171 | updating the front tile leaves the rest of the queue ready, and the drain of the rest from there is the drain of the whole |
| ElevationWorker.DrainLeavesOtherTiles | src/mjolnir/elevationbuilder.cc:159-171 | a tile that is not queued is unchanged by the drain |
| ElevationWorker.DrainUpdatesEveryQueuedTile | src/mjolnir/elevationbuilder.cc:159-171 | every queued tile ends as the pass leaves its original, also when its id is queued more than once (`Build` accepts a caller's id list, lines 194 and 206) |
| ElevationWorker.QueuedOncePersistedOnce | src/mjolnir/elevationbuilder.cc:159-171 | with no id queued twice, each queued tile appears exactly once in the persisted log |
| ElevationWorker.ProcessNextTile | src/mjolnir/elevationbuilder.cc:160-170 | reports done exactly on an empty queue, changing neither the queue, the tiles, the persisted log nor the cache; otherwise pops the front id, replaces exactly that tile by its updated form and persists it, leaves the cache holding that tile's entries, and keeps the remaining drain equal to the original one |
| ElevationWorker.AddElevationsToMultipleTiles | src/mjolnir/elevationbuilder.cc:145-171 | the loop terminates with an empty queue, every queued id is persisted in queue order, and the tiles are those of the in-order drain; with no id queued twice, each queued tile not persisted before appears exactly once in the persisted log |
| ElevationWorker.ThreadCount | src/mjolnir/elevationbuilder.cc:202-204 | at least one thread; the configured (or hardware) count when that is positive, otherwise 1 |

## Left out

- Threads, the mutex and the `std::promise` results vector (lines 209-223) are not modelled. One worker drains the queue sequentially; the promises are never set or read.
- `GraphReader::OverCommitted` and `Trim` (lines 135-139) are not modelled. They govern a foreign tile cache that the pass neither reads nor writes.
- The tile's binary form is not modelled. Opening a tile (line 42) and `StoreTileData` (line 132) are a copy out of and back into a map of tile values.
- `get_tile_ids` (lines 174-186) is not modelled: it is directory enumeration and a random shuffle.
- `Build`'s configuration and filesystem check and its logging (lines 195-199, 212-225) are not modelled; only the thread count at lines 202-204 is.
- `resample_spherical_polyline`, `sample::get_all` and `skadi::weighted_grade` are `Env` parameters without internals: they are floating-point numerics and spherical geometry.
- Grades, slopes and means are `real`. The model does not capture:
  - the narrowing of slopes and means from double to float (lines 34, 113, 125-126);
  - the rounding of `.6` as a double;
  - the encodings of the `DirectedEdge` setters, which clamp and scale the stored values.
- The values of the two markers come from headers that are not part of this model: `skadi::get_no_data_value()` is -32768 and `kNoElevationData` is -500.
- `cache.reserve` (line 52) is left out; it only affects capacity.
- ElevationGrades.Bucket: requires the cast argument to lie in (-1, 2^32). Outside that range the cast is undefined behaviour in C++. `GradesBucketable` assumes the grade algorithm stays inside it.
- TileElevation.AddElevationsToSingleTile: requires the tile to exist and every edge's offset to name an edge-info record whose shape has at least one point whenever its endpoints are sampled (`WellFormed`). A missing tile or an empty shape is not handled by the code at all.
- ElevationWorker.AddElevationsToMultipleTiles: requires every queued id to name a stored, well-formed tile, for the same reason.
- TileElevation.CacheUpTo: its own contract states only that the cache starts empty. That the keys after `n` edges are exactly the offsets of edges `[0, n)` is the lemma `UpToKeys`, called where it is needed. The same holds for `TileElevation.MeansUpTo`.
