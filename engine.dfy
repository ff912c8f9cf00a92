/**
 * The collaborators the placement scheduler drives, reduced to what the
 * scheduler can observe of them: tiles that hold per-layer symbol buckets,
 * bucket parts (the units of placement work), style layers, and the shared
 * `Placement` object, whose collision decisions are abstracted into a ghost
 * log of the work it was asked to do.
 */
module PlacementEngine {

  datatype Option<T> = None | Some(value: T)

  type LayerId = string

  /** One unit of placement work cut from one tile's symbol bucket for one layer. */
  datatype BucketPart = BucketPart(
    tileId: int,
    sortKey: int,
    symbolInstanceStart: nat,
    symbolInstanceEnd: nat,
    crossTileIds: set<int>)

  /** A tile: the candidate parts each of its symbol buckets yields, by layer. */
  datatype Tile = Tile(id: int, buckets: map<LayerId, seq<BucketPart>>)

  /** The parts the engine extracts from a tile for a layer; a tile without a bucket for it yields none. */
  function TileParts(tile: Tile, layer: LayerId): seq<BucketPart> {
    if layer in tile.buckets then tile.buckets[layer] else []
  }

  /**
   * What the scheduler reads of a style layer: its kind ("symbol", "line", ...),
   * its source, its zoom bracket, and the three layout values that steer
   * placement (symbol-z-order, whether symbol-sort-key is set, symbol-z-elevate).
   */
  datatype StyleLayer = StyleLayer(
    id: LayerId,
    kind: string,
    source: string,
    minzoom: Option<real>,
    maxzoom: Option<real>,
    symbolZOrder: string,
    hasSortKey: bool,
    symbolZElevate: bool)

  /** One entry of the work log: a call into the engine, or the cross-tile sort of one layer. */
  datatype WorkItem =
    | Collected(layer: LayerId, tile: Tile, sortAcrossTiles: bool)
    | Sorted(layer: LayerId)
    | Placed(part: BucketPart, seenCrossTileIds: set<int>, showCollisionBoxes: bool, firstOfCollection: bool)

  /** Collection and evaluation steps are units of work, each followed by one pause check; the sort is not. */
  predicate IsUnit(w: WorkItem) {
    !w.Sorted?
  }

  /** The number of units of work in a stretch of the log. */
  function CountUnits(s: seq<WorkItem>): nat {
    if s == [] then 0 else CountUnits(s[..|s| - 1]) + (if IsUnit(s[|s| - 1]) then 1 else 0)
  }

  lemma CountUnitsSnoc(s: seq<WorkItem>, w: WorkItem)
    ensures CountUnits(s + [w]) == CountUnits(s) + (if IsUnit(w) then 1 else 0)
  {
    assert (s + [w])[..|s|] == s;
  }

  lemma {:induction false} CountUnitsAppend(a: seq<WorkItem>, b: seq<WorkItem>)
    ensures CountUnits(a + b) == CountUnits(a) + CountUnits(b)
    decreases |b|
  {
    if b == [] {
      assert a + b == a;
    } else {
      var b' := b[..|b| - 1];
      var w := b[|b| - 1];
      assert b == b' + [w];
      assert a + b == (a + b') + [w];
      CountUnitsSnoc(a + b', w);
      CountUnitsSnoc(b', w);
      CountUnitsAppend(a, b');
    }
  }

  /**
   * The shared placement state of one pass. Collision detection itself is
   * not modelled: each call only appends its arguments to `log`, so two runs
   * whose logs are equal made the same decisions.
   */
  class Placement {
    const zoom: real
    ghost var log: seq<WorkItem>
    var committedAt: Option<int>

    constructor (zoom: real)
      ensures this.zoom == zoom && log == [] && committedAt == None
    {
      this.zoom := zoom;
      log := [];
      committedAt := None;
    }

    /** Appends the parts of `tile` for `styleLayer` to `results`. */
    method GetBucketParts(results: seq<BucketPart>, styleLayer: StyleLayer, tile: Tile, sortAcrossTiles: bool)
      returns (extended: seq<BucketPart>)
      modifies this`log
      ensures extended == results + TileParts(tile, styleLayer.id)
      ensures log == old(log) + [Collected(styleLayer.id, tile, sortAcrossTiles)]
    {
      extended := results + TileParts(tile, styleLayer.id);
      log := log + [Collected(styleLayer.id, tile, sortAcrossTiles)];
    }

    /** Evaluates one part; the cross-tile IDs it places join the seen set. */
    method PlaceLayerBucketPart(part: BucketPart, seenCrossTileIds: set<int>, showCollisionBoxes: bool, firstOfCollection: bool)
      returns (seen: set<int>)
      modifies this`log
      ensures seen == seenCrossTileIds + part.crossTileIds
      ensures log == old(log) + [Placed(part, seenCrossTileIds, showCollisionBoxes, firstOfCollection)]
    {
      seen := seenCrossTileIds + part.crossTileIds;
      log := log + [Placed(part, seenCrossTileIds, showCollisionBoxes, firstOfCollection)];
    }

    /** Finalises the decisions made so far at time `now`. */
    method Commit(now: int)
      modifies this`committedAt
      ensures committedAt == Some(now)
    {
      committedAt := Some(now);
    }
  }
}
