/** The work distribution of the elevation pass, run by one worker: tile ids are
    popped from the front of the shared queue until it is empty, and each popped
    tile is updated with the worker's own geo-attribute cache. */
module ElevationWorker {
  import opened ElevationGrades
  import opened TileElevation

  /** The shared deque of tile ids still to be processed. */
  class TaskQueue {
    var ids: seq<GraphId>

    constructor (ids: seq<GraphId>)
      ensures this.ids == ids
    {
      this.ids := ids;
    }

    method Empty() returns (b: bool)
      ensures b <==> ids == []
    {
      b := ids == [];
    }

    method Front() returns (id: GraphId)
      requires ids != []
      ensures id == ids[0]
    {
      id := ids[0];
    }

    method PopFront()
      requires ids != []
      modifies this
      ensures ids == old(ids)[1..]
    {
      ids := ids[1..];
    }
  }

  /** Every queued id names a stored tile the pass can update. */
  ghost predicate Ready(tiles: map<GraphId, TileData>, ids: seq<GraphId>) {
    forall id :: id in ids ==> id in tiles && WellFormed(tiles[id])
  }

  /** The tile store after the queued tiles are updated one after another, in queue order. */
  function DrainAll(env: Env, tiles: map<GraphId, TileData>, ids: seq<GraphId>): (r: map<GraphId, TileData>)
    requires GradesBucketable(env) && Ready(tiles, ids)
    ensures r.Keys == tiles.Keys
    decreases |ids|
  {
    if ids == [] then tiles
    else
      var id := ids[0];
      DrainAll(env, tiles[id := UpdatedTile(env, tiles[id])], ids[1..])
  }

  /** Updating the front tile leaves the rest of the queue ready, and what remains of
      the drain after it. */
  lemma DrainFront(env: Env, tiles: map<GraphId, TileData>, ids: seq<GraphId>)
    requires GradesBucketable(env) && Ready(tiles, ids) && ids != []
    ensures Ready(tiles[ids[0] := UpdatedTile(env, tiles[ids[0]])], ids[1..])
    ensures DrainAll(env, tiles, ids)
            == DrainAll(env, tiles[ids[0] := UpdatedTile(env, tiles[ids[0]])], ids[1..])
  {
  }

  /** A tile that is not queued is left as it is. */
  lemma {:induction false} DrainLeavesOtherTiles(
    env: Env, tiles: map<GraphId, TileData>, ids: seq<GraphId>, x: GraphId)
    requires GradesBucketable(env) && Ready(tiles, ids)
    requires x in tiles && x !in ids
    ensures DrainAll(env, tiles, ids)[x] == tiles[x]
    decreases |ids|
  {
    if ids != [] {
      var id := ids[0];
      DrainLeavesOtherTiles(env, tiles[id := UpdatedTile(env, tiles[id])], ids[1..], x);
    }
  }

  /** Every queued tile ends as the pass leaves it, even when its id is queued more than
      once: a repeated update changes nothing. */
  lemma {:induction false} DrainUpdatesEveryQueuedTile(
    env: Env, tiles: map<GraphId, TileData>, ids: seq<GraphId>, x: GraphId)
    requires GradesBucketable(env) && Ready(tiles, ids)
    requires x in ids
    ensures DrainAll(env, tiles, ids)[x] == UpdatedTile(env, tiles[x])
    decreases |ids|
  {
    var id := ids[0];
    var next := tiles[id := UpdatedTile(env, tiles[id])];
    DrainFront(env, tiles, ids);
    if x in ids[1..] {
      DrainUpdatesEveryQueuedTile(env, next, ids[1..], x);
      if id == x {
        UpdatedTileIdempotent(env, tiles[x]);
      }
    } else {
      assert id == x by {
        assert ids == [id] + ids[1..];
      }
      DrainLeavesOtherTiles(env, next, ids[1..], x);
    }
  }

  /** With no id queued twice, each queued tile is persisted exactly once. */
  lemma {:induction false} QueuedOncePersistedOnce(log: seq<GraphId>, ids: seq<GraphId>, x: GraphId)
    requires NoDuplicates(ids) && x in ids && x !in log
    ensures multiset(log + ids)[x] == 1
    decreases |ids|
  {
    assert multiset(log + ids) == multiset(log) + multiset(ids);
    if ids[0] == x {
      assert x !in ids[1..];
      assert ids == [x] + ids[1..];
      assert multiset(ids) == multiset{x} + multiset(ids[1..]);
    } else {
      assert x in ids[1..] by {
        var j :| 0 <= j < |ids| && ids[j] == x;
        assert ids[1..][j - 1] == x;
      }
      QueuedOncePersistedOnce([], ids[1..], x);
      assert ids == [ids[0]] + ids[1..];
      assert multiset(ids) == multiset{ids[0]} + multiset(ids[1..]);
    }
  }

  /** Lines 160-170: one iteration of a worker: take the front id under the lock, or
      report that the queue is empty, and update that tile. */
  method ProcessNextTile(queue: TaskQueue, store: TileStore, cache: GeoAttributeCache, env: Env)
    returns (done: bool)
    requires GradesBucketable(env) && Ready(store.tiles, queue.ids)
    modifies queue, store, cache
    ensures done <==> old(queue.ids) == []
    ensures done ==> && queue.ids == [] && store.tiles == old(store.tiles)
                     && store.stored == old(store.stored) && cache.entries == old(cache.entries)
    ensures !done ==> && queue.ids == old(queue.ids)[1..]
                      && store.stored == old(store.stored) + [old(queue.ids)[0]]
                      && Ready(store.tiles, queue.ids)
                      && DrainAll(env, store.tiles, queue.ids)
                         == DrainAll(env, old(store.tiles), old(queue.ids))
    ensures !done ==>
      var id := old(queue.ids)[0];
      && store.tiles == old(store.tiles)[id := UpdatedTile(env, old(store.tiles)[id])]
      && cache.entries == CacheUpTo(env, old(store.tiles)[id], |old(store.tiles)[id].edges|)
  {
    done := queue.Empty();
    if done {
      return;
    }
    var id := queue.Front();
    queue.PopFront();
    DrainFront(env, store.tiles, old(queue.ids));
    ghost var writes := AddElevationsToSingleTile(store, cache, env, id);
  }

  /** Moving the front id of the queue to the processed prefix keeps both logs aligned. */
  lemma FrontMovesToProcessed<T>(log: seq<T>, processed: seq<T>, queued: seq<T>)
    requires queued != []
    ensures (processed + [queued[0]]) + queued[1..] == processed + queued
    ensures (log + processed) + [queued[0]] == log + (processed + [queued[0]])
  {
    assert queued == [queued[0]] + queued[1..];
  }

  /** Lines 145-171: one worker drains the queue. */
  method AddElevationsToMultipleTiles(queue: TaskQueue, store: TileStore, env: Env)
    requires GradesBucketable(env) && Ready(store.tiles, queue.ids)
    modifies queue, store
    ensures queue.ids == []
    ensures store.stored == old(store.stored) + old(queue.ids)
    ensures store.tiles == DrainAll(env, old(store.tiles), old(queue.ids))
    ensures NoDuplicates(old(queue.ids)) ==>
      forall x :: x in old(queue.ids) && x !in old(store.stored) ==> multiset(store.stored)[x] == 1
  {
    var cache := new GeoAttributeCache();
    ghost var processed: seq<GraphId> := [];
    while true
      invariant Ready(store.tiles, queue.ids)
      invariant old(queue.ids) == processed + queue.ids
      invariant store.stored == old(store.stored) + processed
      invariant DrainAll(env, store.tiles, queue.ids) == DrainAll(env, old(store.tiles), old(queue.ids))
      decreases |queue.ids|
    {
      ghost var before := queue.ids;
      var done := ProcessNextTile(queue, store, cache, env);
      if done {
        break;
      }
      FrontMovesToProcessed(old(store.stored), processed, before);
      processed := processed + [before[0]];
    }
    if NoDuplicates(old(queue.ids)) {
      forall x | x in old(queue.ids) && x !in old(store.stored)
        ensures multiset(store.stored)[x] == 1
      {
        QueuedOncePersistedOnce(old(store.stored), old(queue.ids), x);
      }
    }
  }

  /** Lines 202-204: at least one worker thread, otherwise the configured count or the
      hardware concurrency. */
  function ThreadCount(configured: Option<nat>, hardware: nat): (n: nat)
    ensures n >= 1
    ensures var asked := if configured.Some? then configured.value else hardware;
            n >= asked && (n == asked || n == 1)
  {
    var asked := if configured.Some? then configured.value else hardware;
    if asked < 1 then 1 else asked
  }
}
