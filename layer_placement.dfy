/**
 * Incremental placement of one symbol layer: collect the bucket parts of
 * every tile, sort them once across tiles when the layer asks for it, then
 * evaluate every part, checking after each unit of work whether to pause.
 *
 * `LayerRun` is the work log of one uninterrupted run of a layer. The log a
 * `LayerPlacement` has produced so far is always a prefix of it
 * (`LayerPlacement.LoggedIsPrefix`), so a series of resumed calls logs
 * exactly that run, cut into consecutive stretches.
 */
module LayerScheduling {
  import opened PlacementEngine
  import opened BucketSort

  /** Whether the layer's parts are sorted across tiles: z-order other than viewport-y, and a sort key set. */
  predicate SortsAcrossTiles(layer: StyleLayer) {
    layer.symbolZOrder != "viewport-y" && layer.hasSortKey
  }

  /** The parts collected from the first `n` tiles, tile by tile in list order. */
  function Gathered(layer: LayerId, tiles: seq<Tile>, n: nat): seq<BucketPart>
    requires n <= |tiles|
  {
    if n == 0 then [] else Gathered(layer, tiles, n - 1) + TileParts(tiles[n - 1], layer)
  }

  /** The parts as they stand when evaluation begins. */
  function FinalParts(layer: StyleLayer, tiles: seq<Tile>): seq<BucketPart> {
    var parts := Gathered(layer.id, tiles, |tiles|);
    if SortsAcrossTiles(layer) then SortByKey(parts) else parts
  }

  /** The cross-tile IDs the evaluation of the first `n` parts adds to the seen set. */
  function SeenBy(parts: seq<BucketPart>, n: nat): set<int>
    requires n <= |parts|
  {
    if n == 0 then {} else SeenBy(parts, n - 1) + parts[n - 1].crossTileIds
  }

  /** The log of collecting the first `n` tiles. */
  function CollectLog(layer: StyleLayer, tiles: seq<Tile>, n: nat): (log: seq<WorkItem>)
    requires n <= |tiles|
    ensures |log| == n
  {
    if n == 0 then [] else CollectLog(layer, tiles, n - 1) + [Collected(layer.id, tiles[n - 1], SortsAcrossTiles(layer))]
  }

  function SortLog(layer: StyleLayer): seq<WorkItem> {
    if SortsAcrossTiles(layer) then [Sorted(layer.id)] else []
  }

  /**
   * The log of evaluating the first `n` parts: each with the seen set the
   * parts before it built, and flagged first of its collection exactly when
   * its symbol range starts at 0.
   */
  function PlaceLog(parts: seq<BucketPart>, n: nat, showCollisionBoxes: bool): (log: seq<WorkItem>)
    requires n <= |parts|
    ensures |log| == n
  {
    if n == 0 then [] else
      var part := parts[n - 1];
      PlaceLog(parts, n - 1, showCollisionBoxes) + [Placed(part, SeenBy(parts, n - 1), showCollisionBoxes, part.symbolInstanceStart == 0)]
  }

  /** The work log of one uninterrupted run of a layer over `tiles`. */
  function LayerRun(layer: StyleLayer, tiles: seq<Tile>, showCollisionBoxes: bool): seq<WorkItem> {
    var parts := FinalParts(layer, tiles);
    CollectLog(layer, tiles, |tiles|) + SortLog(layer) + PlaceLog(parts, |parts|, showCollisionBoxes)
  }

  lemma AppendAssoc<T>(a: seq<T>, b: seq<T>, c: seq<T>)
    ensures a + b + c == a + (b + c)
  {
  }

  lemma TakeLeft<T>(a: seq<T>, b: seq<T>, k: nat)
    requires k <= |a|
    ensures (a + b)[..k] == a[..k]
  {
  }

  lemma TakeRight<T>(a: seq<T>, b: seq<T>, k: nat)
    requires k <= |b|
    ensures (a + b)[..|a| + k] == a + b[..k]
  {
  }

  lemma {:induction false} CollectLogPrefix(layer: StyleLayer, tiles: seq<Tile>, n: nat, m: nat)
    requires n <= m <= |tiles|
    ensures CollectLog(layer, tiles, m)[..n] == CollectLog(layer, tiles, n)
    decreases m
  {
    if n < m {
      CollectLogPrefix(layer, tiles, n, m - 1);
      assert CollectLog(layer, tiles, m)[..m - 1] == CollectLog(layer, tiles, m - 1);
    } else if m > 0 {
      CollectLogPrefix(layer, tiles, m - 1, m - 1);
    }
  }

  lemma {:induction false} PlaceLogPrefix(parts: seq<BucketPart>, n: nat, m: nat, showCollisionBoxes: bool)
    requires n <= m <= |parts|
    ensures PlaceLog(parts, m, showCollisionBoxes)[..n] == PlaceLog(parts, n, showCollisionBoxes)
    decreases m
  {
    if n < m {
      PlaceLogPrefix(parts, n, m - 1, showCollisionBoxes);
      assert PlaceLog(parts, m, showCollisionBoxes)[..m - 1] == PlaceLog(parts, m - 1, showCollisionBoxes);
    } else if m > 0 {
      PlaceLogPrefix(parts, m - 1, m - 1, showCollisionBoxes);
    }
  }

  /** Each collection is one unit of work. */
  lemma {:induction false} CollectLogUnits(layer: StyleLayer, tiles: seq<Tile>, n: nat)
    requires n <= |tiles|
    ensures CountUnits(CollectLog(layer, tiles, n)) == n
  {
    if n > 0 {
      CollectLogUnits(layer, tiles, n - 1);
      CountUnitsSnoc(CollectLog(layer, tiles, n - 1), Collected(layer.id, tiles[n - 1], SortsAcrossTiles(layer)));
    }
  }

  /** Each evaluation is one unit of work. */
  lemma {:induction false} PlaceLogUnits(parts: seq<BucketPart>, n: nat, showCollisionBoxes: bool)
    requires n <= |parts|
    ensures CountUnits(PlaceLog(parts, n, showCollisionBoxes)) == n
  {
    if n > 0 {
      PlaceLogUnits(parts, n - 1, showCollisionBoxes);
      CountUnitsSnoc(PlaceLog(parts, n - 1, showCollisionBoxes),
        Placed(parts[n - 1], SeenBy(parts, n - 1), showCollisionBoxes, parts[n - 1].symbolInstanceStart == 0));
    }
  }

  /** The sort is no unit of work: no pause check follows it. */
  lemma SortLogUnits(layer: StyleLayer)
    ensures CountUnits(SortLog(layer)) == 0
  {
    if SortsAcrossTiles(layer) {
      assert SortLog(layer)[..0] == [];
    }
  }

  // Projections of a work log: which tiles it collects, which parts it evaluates, how often it sorts.

  function CollectedTiles(s: seq<WorkItem>): seq<Tile> {
    if s == [] then [] else (if s[0].Collected? then [s[0].tile] else []) + CollectedTiles(s[1..])
  }

  function PlacedParts(s: seq<WorkItem>): seq<BucketPart> {
    if s == [] then [] else (if s[0].Placed? then [s[0].part] else []) + PlacedParts(s[1..])
  }

  function SortCount(s: seq<WorkItem>): nat {
    if s == [] then 0 else (if s[0].Sorted? then 1 else 0) + SortCount(s[1..])
  }

  lemma CollectedTilesCons(w: WorkItem, t: seq<WorkItem>)
    ensures CollectedTiles([w] + t) == (if w.Collected? then [w.tile] else []) + CollectedTiles(t)
  {
    assert ([w] + t)[1..] == t;
  }

  lemma PlacedPartsCons(w: WorkItem, t: seq<WorkItem>)
    ensures PlacedParts([w] + t) == (if w.Placed? then [w.part] else []) + PlacedParts(t)
  {
    assert ([w] + t)[1..] == t;
  }

  lemma SortCountCons(w: WorkItem, t: seq<WorkItem>)
    ensures SortCount([w] + t) == (if w.Sorted? then 1 else 0) + SortCount(t)
  {
    assert ([w] + t)[1..] == t;
  }

  lemma {:induction false} CollectedTilesAppend(a: seq<WorkItem>, b: seq<WorkItem>)
    ensures CollectedTiles(a + b) == CollectedTiles(a) + CollectedTiles(b)
  {
    if a == [] {
      assert a + b == b;
    } else {
      CollectedTilesAppend(a[1..], b);
      assert a == [a[0]] + a[1..];
      assert a + b == [a[0]] + (a[1..] + b);
      CollectedTilesCons(a[0], a[1..] + b);
      CollectedTilesCons(a[0], a[1..]);
    }
  }

  lemma {:induction false} PlacedPartsAppend(a: seq<WorkItem>, b: seq<WorkItem>)
    ensures PlacedParts(a + b) == PlacedParts(a) + PlacedParts(b)
  {
    if a == [] {
      assert a + b == b;
    } else {
      PlacedPartsAppend(a[1..], b);
      assert a == [a[0]] + a[1..];
      assert a + b == [a[0]] + (a[1..] + b);
      PlacedPartsCons(a[0], a[1..] + b);
      PlacedPartsCons(a[0], a[1..]);
    }
  }

  lemma {:induction false} SortCountAppend(a: seq<WorkItem>, b: seq<WorkItem>)
    ensures SortCount(a + b) == SortCount(a) + SortCount(b)
  {
    if a == [] {
      assert a + b == b;
    } else {
      SortCountAppend(a[1..], b);
      assert a == [a[0]] + a[1..];
      assert a + b == [a[0]] + (a[1..] + b);
      SortCountCons(a[0], a[1..] + b);
      SortCountCons(a[0], a[1..]);
    }
  }

  /** How the three projections of a work log distribute over concatenation. */
  lemma ProjectionsAppend(a: seq<WorkItem>, b: seq<WorkItem>)
    ensures CollectedTiles(a + b) == CollectedTiles(a) + CollectedTiles(b)
    ensures PlacedParts(a + b) == PlacedParts(a) + PlacedParts(b)
    ensures SortCount(a + b) == SortCount(a) + SortCount(b)
  {
    CollectedTilesAppend(a, b);
    PlacedPartsAppend(a, b);
    SortCountAppend(a, b);
  }

  /** Collecting the first `n` tiles visits exactly those tiles, in order, and nothing else. */
  lemma {:induction false} CollectLogProjections(layer: StyleLayer, tiles: seq<Tile>, n: nat)
    requires n <= |tiles|
    ensures CollectedTiles(CollectLog(layer, tiles, n)) == tiles[..n]
    ensures PlacedParts(CollectLog(layer, tiles, n)) == [] && SortCount(CollectLog(layer, tiles, n)) == 0
  {
    if n > 0 {
      var w := Collected(layer.id, tiles[n - 1], SortsAcrossTiles(layer));
      CollectLogProjections(layer, tiles, n - 1);
      ProjectionsAppend(CollectLog(layer, tiles, n - 1), [w]);
      CollectedTilesCons(w, []);
      PlacedPartsCons(w, []);
      SortCountCons(w, []);
      assert tiles[..n] == tiles[..n - 1] + [tiles[n - 1]];
    }
  }

  /** Evaluating the first `n` parts evaluates exactly those parts, in order, and nothing else. */
  lemma {:induction false} PlaceLogProjections(parts: seq<BucketPart>, n: nat, showCollisionBoxes: bool)
    requires n <= |parts|
    ensures PlacedParts(PlaceLog(parts, n, showCollisionBoxes)) == parts[..n]
    ensures CollectedTiles(PlaceLog(parts, n, showCollisionBoxes)) == [] && SortCount(PlaceLog(parts, n, showCollisionBoxes)) == 0
  {
    if n > 0 {
      var w := Placed(parts[n - 1], SeenBy(parts, n - 1), showCollisionBoxes, parts[n - 1].symbolInstanceStart == 0);
      PlaceLogProjections(parts, n - 1, showCollisionBoxes);
      ProjectionsAppend(PlaceLog(parts, n - 1, showCollisionBoxes), [w]);
      CollectedTilesCons(w, []);
      PlacedPartsCons(w, []);
      SortCountCons(w, []);
      assert parts[..n] == parts[..n - 1] + [parts[n - 1]];
    }
  }

  /**
   * One run of a layer collects every tile exactly once and in list order,
   * sorts at most once (exactly when the layer sorts across tiles), and
   * evaluates every final part exactly once and in order.
   */
  lemma LayerRunExactlyOnce(layer: StyleLayer, tiles: seq<Tile>, showCollisionBoxes: bool)
    ensures CollectedTiles(LayerRun(layer, tiles, showCollisionBoxes)) == tiles
    ensures PlacedParts(LayerRun(layer, tiles, showCollisionBoxes)) == FinalParts(layer, tiles)
    ensures SortCount(LayerRun(layer, tiles, showCollisionBoxes)) == if SortsAcrossTiles(layer) then 1 else 0
  {
    var parts := FinalParts(layer, tiles);
    var c, m, p := CollectLog(layer, tiles, |tiles|), SortLog(layer), PlaceLog(parts, |parts|, showCollisionBoxes);
    CollectLogProjections(layer, tiles, |tiles|);
    PlaceLogProjections(parts, |parts|, showCollisionBoxes);
    ProjectionsAppend(c, m);
    ProjectionsAppend(c + m, p);
    if SortsAcrossTiles(layer) {
      CollectedTilesCons(Sorted(layer.id), []);
      PlacedPartsCons(Sorted(layer.id), []);
      SortCountCons(Sorted(layer.id), []);
    }
    assert tiles[..|tiles|] == tiles;
    assert parts[..|parts|] == parts;
  }

  /** Each evaluation is flagged first of its collection exactly when the part's symbol range starts at 0. */
  lemma {:induction false} PlaceLogFirstOfCollection(parts: seq<BucketPart>, n: nat, showCollisionBoxes: bool, j: nat)
    requires j < n <= |parts|
    ensures PlaceLog(parts, n, showCollisionBoxes)[j] ==
      Placed(parts[j], SeenBy(parts, j), showCollisionBoxes, parts[j].symbolInstanceStart == 0)
  {
    PlaceLogPrefix(parts, n - 1, n, showCollisionBoxes);
    if j < n - 1 {
      PlaceLogFirstOfCollection(parts, n - 1, showCollisionBoxes, j);
    }
  }

  /**
   * The parts evaluated are exactly the collected ones: sorted by key,
   * permuted and stable when the layer sorts across tiles, and in
   * collection order otherwise.
   */
  lemma FinalPartsOrder(layer: StyleLayer, tiles: seq<Tile>)
    ensures multiset(FinalParts(layer, tiles)) == multiset(Gathered(layer.id, tiles, |tiles|))
    ensures |FinalParts(layer, tiles)| == |Gathered(layer.id, tiles, |tiles|)|
    ensures SortsAcrossTiles(layer) ==> SortedByKey(FinalParts(layer, tiles))
    ensures SortsAcrossTiles(layer) ==>
      forall k :: WithKey(FinalParts(layer, tiles), k) == WithKey(Gathered(layer.id, tiles, |tiles|), k)
    ensures !SortsAcrossTiles(layer) ==> FinalParts(layer, tiles) == Gathered(layer.id, tiles, |tiles|)
  {
    var parts := Gathered(layer.id, tiles, |tiles|);
    SortByKeyPermutes(parts);
    SortByKeySorted(parts);
    forall k ensures WithKey(SortByKey(parts), k) == WithKey(parts, k) {
      SortByKeyStable(parts, k);
    }
  }

  /**
   * What the clock says to the pause checks of one call: `timeUp[j]` is
   * whether the time budget is spent when the `j`-th check is made; checks
   * past the list find time left.
   */
  datatype Clock = Clock(timeUp: seq<bool>)

  /** The `j`-th pause check of a call says to pause. */
  predicate Pause(answers: Clock, j: nat) {
    j < |answers.timeUp| && answers.timeUp[j]
  }

  /** None of the checks `lo .. hi - 1` says to pause. */
  predicate NoPause(answers: Clock, lo: nat, hi: nat) {
    forall j :: lo <= j < hi ==> !Pause(answers, j)
  }

  /**
   * The outcome of `n` pause checks of one call: when they paused, the last
   * one said so; none before it did.
   */
  predicate Stopped(answers: Clock, paused: bool, n: nat) {
    (paused ==> 0 < n && Pause(answers, n - 1)) &&
    NoPause(answers, 0, if paused then n - 1 else n)
  }

  /** The resumable state of one layer's placement. */
  class LayerPlacement {
    var sortAcrossTiles: bool
    var currentTileIndex: nat
    var currentPartIndex: nat
    var seenCrossTileIds: set<int>
    var bucketParts: seq<BucketPart>
    /** The value `sortAcrossTiles` had at construction. */
    ghost const sortRequested: bool

    /**
     * The state is a point of `LayerRun(styleLayer, tiles, _)`: while
     * collecting, or before the pending sort, the parts are those of the
     * tiles collected so far and nothing was evaluated; afterwards the parts
     * are final and the seen set holds what the evaluated ones added.
     */
    ghost predicate Valid(tiles: seq<Tile>, styleLayer: StyleLayer)
      reads this
    {
      sortRequested == SortsAcrossTiles(styleLayer) &&
      currentTileIndex <= |tiles| &&
      (sortAcrossTiles ==> sortRequested) &&
      (currentTileIndex < |tiles| ==> sortAcrossTiles == sortRequested) &&
      if currentTileIndex < |tiles| || sortAcrossTiles then
        currentPartIndex == 0 && seenCrossTileIds == {} &&
        bucketParts == Gathered(styleLayer.id, tiles, currentTileIndex)
      else
        bucketParts == FinalParts(styleLayer, tiles) && Placing(tiles)
    }

    /**
     * The evaluation phase: collection and sort are over, and the seen set
     * holds what the parts before `currentPartIndex` added.
     */
    ghost predicate Placing(tiles: seq<Tile>)
      reads this
    {
      currentTileIndex == |tiles| && !sortAcrossTiles &&
      currentPartIndex <= |bucketParts| && seenCrossTileIds == SeenBy(bucketParts, currentPartIndex)
    }

    /** The sort, when the layer asked for one, is done. */
    ghost predicate SortDone()
      reads this
    {
      sortRequested && !sortAcrossTiles
    }

    /** How many entries of the layer's run this instance has logged. */
    ghost function Progress(): nat
      reads this
    {
      currentTileIndex + (if SortDone() then 1 else 0) + currentPartIndex
    }

    /** What this instance has logged so far. */
    ghost function Logged(tiles: seq<Tile>, styleLayer: StyleLayer, showCollisionBoxes: bool): seq<WorkItem>
      reads this
      requires Valid(tiles, styleLayer)
    {
      if currentTileIndex < |tiles| || sortAcrossTiles then CollectLog(styleLayer, tiles, currentTileIndex)
      else CollectLog(styleLayer, tiles, |tiles|) + SortLog(styleLayer) + PlaceLog(bucketParts, currentPartIndex, showCollisionBoxes)
    }

    /** What has been logged is the prefix of the layer's run of length `Progress()`. */
    lemma LoggedIsPrefix(tiles: seq<Tile>, styleLayer: StyleLayer, showCollisionBoxes: bool)
      requires Valid(tiles, styleLayer)
      ensures Progress() <= |LayerRun(styleLayer, tiles, showCollisionBoxes)|
      ensures Logged(tiles, styleLayer, showCollisionBoxes) == LayerRun(styleLayer, tiles, showCollisionBoxes)[..Progress()]
    {
      var parts := FinalParts(styleLayer, tiles);
      var c, m, p := CollectLog(styleLayer, tiles, |tiles|), SortLog(styleLayer), PlaceLog(parts, |parts|, showCollisionBoxes);
      assert LayerRun(styleLayer, tiles, showCollisionBoxes) == c + m + p;
      if currentTileIndex < |tiles| || sortAcrossTiles {
        CollectLogPrefix(styleLayer, tiles, currentTileIndex, |tiles|);
        TakeLeft(c, m + p, currentTileIndex);
        AppendAssoc(c, m, p);
      } else {
        PlaceLogPrefix(parts, currentPartIndex, |parts|, showCollisionBoxes);
        TakeRight(c + m, p, currentPartIndex);
      }
    }

    /** The whole run has been logged exactly when all tiles are collected, the sort is done and all parts are evaluated. */
    lemma LoggedIsComplete(tiles: seq<Tile>, styleLayer: StyleLayer, showCollisionBoxes: bool)
      requires Valid(tiles, styleLayer)
      ensures Progress() == |LayerRun(styleLayer, tiles, showCollisionBoxes)| <==>
        currentTileIndex == |tiles| && !sortAcrossTiles && currentPartIndex == |bucketParts|
    {
      var parts := FinalParts(styleLayer, tiles);
      assert |LayerRun(styleLayer, tiles, showCollisionBoxes)| == |tiles| + |SortLog(styleLayer)| + |parts|;
      if currentTileIndex < |tiles| || sortAcrossTiles {
        assert |Gathered(styleLayer.id, tiles, currentTileIndex)| == |bucketParts|;
      }
    }

    /** Every entry logged but the sort is a unit of work. */
    lemma LoggedUnits(tiles: seq<Tile>, styleLayer: StyleLayer, showCollisionBoxes: bool)
      requires Valid(tiles, styleLayer)
      ensures CountUnits(Logged(tiles, styleLayer, showCollisionBoxes)) == currentTileIndex + currentPartIndex
    {
      if currentTileIndex < |tiles| || sortAcrossTiles {
        CollectLogUnits(styleLayer, tiles, currentTileIndex);
      } else {
        var c, m := CollectLog(styleLayer, tiles, |tiles|), SortLog(styleLayer);
        SortLogUnits(styleLayer);
        CollectLogUnits(styleLayer, tiles, |tiles|);
        PlaceLogUnits(bucketParts, currentPartIndex, showCollisionBoxes);
        CountUnitsAppend(c, m);
        CountUnitsAppend(c + m, PlaceLog(bucketParts, currentPartIndex, showCollisionBoxes));
      }
    }

    /** A fresh instance is a valid state for any tile list, and has logged nothing. */
    lemma Started(tiles: seq<Tile>, styleLayer: StyleLayer, showCollisionBoxes: bool)
      requires sortAcrossTiles == sortRequested == SortsAcrossTiles(styleLayer)
      requires currentTileIndex == 0 && currentPartIndex == 0 && seenCrossTileIds == {} && bucketParts == []
      ensures Valid(tiles, styleLayer) && Progress() == 0
      ensures Logged(tiles, styleLayer, showCollisionBoxes) == []
    {
      if |tiles| == 0 && !sortAcrossTiles {
        assert FinalParts(styleLayer, tiles) == [];
      }
    }

    constructor (styleLayer: StyleLayer)
      ensures sortAcrossTiles == sortRequested == SortsAcrossTiles(styleLayer)
      ensures currentTileIndex == 0 && currentPartIndex == 0
      ensures seenCrossTileIds == {} && bucketParts == []
    {
      sortAcrossTiles := styleLayer.symbolZOrder != "viewport-y" && styleLayer.hasSortKey;
      sortRequested := styleLayer.symbolZOrder != "viewport-y" && styleLayer.hasSortKey;
      currentTileIndex := 0;
      currentPartIndex := 0;
      seenCrossTileIds := {};
      bucketParts := [];
      new;
    }

    /** One step of the collection phase: the parts of the next tile join the layer's parts. */
    method CollectTile(tiles: seq<Tile>, placement: Placement, showCollisionBoxes: bool, styleLayer: StyleLayer,
                       ghost before: seq<WorkItem>)
      requires Valid(tiles, styleLayer) && currentTileIndex < |tiles|
      requires placement.log == before + Logged(tiles, styleLayer, showCollisionBoxes)
      modifies this`currentTileIndex, this`bucketParts, placement`log
      ensures Valid(tiles, styleLayer) && currentTileIndex == old(currentTileIndex) + 1
      ensures bucketParts == old(bucketParts) + TileParts(tiles[old(currentTileIndex)], styleLayer.id)
      ensures placement.log == before + Logged(tiles, styleLayer, showCollisionBoxes)
    {
      var item := Collected(styleLayer.id, tiles[currentTileIndex], sortAcrossTiles);
      AppendAssoc(before, CollectLog(styleLayer, tiles, currentTileIndex), [item]);
      bucketParts := placement.GetBucketParts(bucketParts, styleLayer, tiles[currentTileIndex], sortAcrossTiles);
      currentTileIndex := currentTileIndex + 1;
      if !sortAcrossTiles {
        assert Logged(tiles, styleLayer, showCollisionBoxes) == CollectLog(styleLayer, tiles, currentTileIndex) + [] + [];
      }
    }

    /**
     * The collection phase, closed by the pending sort: asks the engine for
     * the parts of each remaining tile, checking after each tile whether to
     * pause; once all tiles are in, sorts the parts if the layer asked for it.
     */
    method GatherParts(tiles: seq<Tile>, placement: Placement, showCollisionBoxes: bool, styleLayer: StyleLayer,
                       shouldPausePlacement: Clock, ghost before: seq<WorkItem>)
      returns (paused: bool, queries: nat)
      requires Valid(tiles, styleLayer)
      requires placement.log == before + Logged(tiles, styleLayer, showCollisionBoxes)
      modifies this`currentTileIndex, this`bucketParts, this`sortAcrossTiles, placement`log
      ensures Valid(tiles, styleLayer)
      ensures placement.log == before + Logged(tiles, styleLayer, showCollisionBoxes)
      ensures old(currentTileIndex) <= currentTileIndex && queries == currentTileIndex - old(currentTileIndex)
      ensures paused ==> 0 < queries && Pause(shouldPausePlacement, queries - 1)
      ensures NoPause(shouldPausePlacement, 0, if paused then queries - 1 else queries)
      ensures !paused ==> currentTileIndex == |tiles| && !sortAcrossTiles
      ensures !old(sortAcrossTiles) ==> !sortAcrossTiles
      ensures old(currentTileIndex) == |tiles| && !old(sortAcrossTiles) ==>
        !paused && queries == 0 && bucketParts == old(bucketParts) && placement.log == old(placement.log)
    {
      queries := 0;
      while currentTileIndex < |tiles|
        invariant Valid(tiles, styleLayer)
        invariant placement.log == before + Logged(tiles, styleLayer, showCollisionBoxes)
        invariant old(currentTileIndex) <= currentTileIndex && queries == currentTileIndex - old(currentTileIndex)
        invariant sortAcrossTiles == old(sortAcrossTiles)
        invariant NoPause(shouldPausePlacement, 0, queries)
      {
        CollectTile(tiles, placement, showCollisionBoxes, styleLayer, before);
        var check := queries;
        queries := queries + 1;
        if Pause(shouldPausePlacement, check) {
          return true, queries;
        }
      }
      if sortAcrossTiles {
        SortPending(tiles, placement, showCollisionBoxes, styleLayer, before);
      }
      return false, queries;
    }

    /** The cross-tile sort: clears the flag, so it happens once, and sorts the parts by key. */
    method SortPending(tiles: seq<Tile>, placement: Placement, showCollisionBoxes: bool, styleLayer: StyleLayer,
                       ghost before: seq<WorkItem>)
      requires Valid(tiles, styleLayer) && currentTileIndex == |tiles| && sortAcrossTiles
      requires placement.log == before + Logged(tiles, styleLayer, showCollisionBoxes)
      modifies this`sortAcrossTiles, this`bucketParts, placement`log
      ensures Valid(tiles, styleLayer) && !sortAcrossTiles
      ensures bucketParts == SortByKey(old(bucketParts))
      ensures placement.log == old(placement.log) + [Sorted(styleLayer.id)]
      ensures placement.log == before + Logged(tiles, styleLayer, showCollisionBoxes)
    {
      sortAcrossTiles := false;
      bucketParts := SortByKey(bucketParts);
      placement.log := placement.log + [Sorted(styleLayer.id)];
      assert Logged(tiles, styleLayer, showCollisionBoxes) == CollectLog(styleLayer, tiles, |tiles|) + [Sorted(styleLayer.id)] + [];
    }

    /** One step of the evaluation phase: the engine evaluates the next part. */
    method PlacePart(tiles: seq<Tile>, placement: Placement, showCollisionBoxes: bool, styleLayer: StyleLayer,
                     ghost before: seq<WorkItem>)
      requires Valid(tiles, styleLayer) && Placing(tiles) && currentPartIndex < |bucketParts|
      requires placement.log == before + Logged(tiles, styleLayer, showCollisionBoxes)
      modifies this`currentPartIndex, this`seenCrossTileIds, placement`log
      ensures Valid(tiles, styleLayer) && Placing(tiles) && currentPartIndex == old(currentPartIndex) + 1
      ensures seenCrossTileIds == old(seenCrossTileIds) + bucketParts[old(currentPartIndex)].crossTileIds
      ensures placement.log == before + Logged(tiles, styleLayer, showCollisionBoxes)
    {
      var part := bucketParts[currentPartIndex];
      var item := Placed(part, seenCrossTileIds, showCollisionBoxes, part.symbolInstanceStart == 0);
      ghost var collected := CollectLog(styleLayer, tiles, |tiles|) + SortLog(styleLayer);
      AppendAssoc(before, collected + PlaceLog(bucketParts, currentPartIndex, showCollisionBoxes), [item]);
      AppendAssoc(collected, PlaceLog(bucketParts, currentPartIndex, showCollisionBoxes), [item]);
      seenCrossTileIds := placement.PlaceLayerBucketPart(part, seenCrossTileIds, showCollisionBoxes, part.symbolInstanceStart == 0);
      currentPartIndex := currentPartIndex + 1;
    }

    /**
     * The evaluation phase: hands each remaining part to the engine, checking
     * after each part whether to pause. `base` checks were made earlier in the
     * same call; `queries` counts them together with the new ones.
     */
    method PlaceParts(tiles: seq<Tile>, placement: Placement, showCollisionBoxes: bool, styleLayer: StyleLayer,
                      shouldPausePlacement: Clock, base: nat, ghost before: seq<WorkItem>)
      returns (paused: bool, queries: nat)
      requires Valid(tiles, styleLayer) && Placing(tiles)
      requires placement.log == before + Logged(tiles, styleLayer, showCollisionBoxes)
      modifies this`currentPartIndex, this`seenCrossTileIds, placement`log
      ensures Valid(tiles, styleLayer)
      ensures placement.log == before + Logged(tiles, styleLayer, showCollisionBoxes)
      ensures old(currentPartIndex) <= currentPartIndex && queries == base + (currentPartIndex - old(currentPartIndex))
      ensures paused ==> base < queries && Pause(shouldPausePlacement, queries - 1)
      ensures NoPause(shouldPausePlacement, base, if paused then queries - 1 else queries)
      ensures !paused ==> currentPartIndex == |bucketParts|
      ensures old(currentPartIndex) == |bucketParts| ==> !paused && queries == base && placement.log == old(placement.log)
    {
      queries := base;
      while currentPartIndex < |bucketParts|
        invariant Valid(tiles, styleLayer) && Placing(tiles)
        invariant placement.log == before + Logged(tiles, styleLayer, showCollisionBoxes)
        invariant old(currentPartIndex) <= currentPartIndex && queries == base + (currentPartIndex - old(currentPartIndex))
        invariant NoPause(shouldPausePlacement, base, queries)
      {
        PlacePart(tiles, placement, showCollisionBoxes, styleLayer, before);
        var check := queries;
        queries := queries + 1;
        if Pause(shouldPausePlacement, check) {
          return true, queries;
        }
      }
      return false, queries;
    }

    /**
     * Does the layer's remaining work until a pause check
     * (`Pause(shouldPausePlacement, j)` for the `j`-th check of this call,
     * counted from 0) says to stop. Returns whether it paused and how many
     * checks it made. `before` is what the log held when this layer's
     * placement began.
     */
    method ContinuePlacement(tiles: seq<Tile>, placement: Placement, showCollisionBoxes: bool,
                             styleLayer: StyleLayer, shouldPausePlacement: Clock, ghost before: seq<WorkItem>)
      returns (paused: bool, queries: nat)
      requires Valid(tiles, styleLayer)
      requires placement.log == before + Logged(tiles, styleLayer, showCollisionBoxes)
      modifies this, placement`log
      ensures Valid(tiles, styleLayer)
      ensures placement.log == before + Logged(tiles, styleLayer, showCollisionBoxes)
      // exactly one pause check after each unit of work; the point reached never moves back
      ensures old(currentTileIndex) <= currentTileIndex && old(currentPartIndex) <= currentPartIndex
      ensures queries == (currentTileIndex - old(currentTileIndex)) + (currentPartIndex - old(currentPartIndex))
      ensures !old(sortAcrossTiles) ==> !sortAcrossTiles
      // a pause happens right after the first check that says so
      ensures Stopped(shouldPausePlacement, paused, queries)
      // not pausing means the layer is finished
      ensures !paused ==> currentTileIndex == |tiles| && !sortAcrossTiles && currentPartIndex == |bucketParts|
      // a call on a finished layer does nothing
      ensures old(currentTileIndex) == |tiles| && !old(sortAcrossTiles) && old(currentPartIndex) == |old(bucketParts)| ==>
        !paused && queries == 0 && placement.log == old(placement.log)
    {
      paused, queries := GatherParts(tiles, placement, showCollisionBoxes, styleLayer, shouldPausePlacement, before);
      if !paused {
        paused, queries := PlaceParts(tiles, placement, showCollisionBoxes, styleLayer, shouldPausePlacement, queries, before);
      }
    }
  }
}
