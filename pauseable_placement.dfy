/**
 * The placement pass over a whole style: layers are visited from the last
 * entry of the style's layer order down to the first, each qualifying
 * symbol layer is handed to a `LayerPlacement`, and the pass stops whenever
 * the time budget of the current frame is spent, to resume on the next.
 *
 * `PassLog` is the work log of one uninterrupted pass. The log a
 * `PauseablePlacement` has produced is always a prefix of it
 * (`PauseablePlacement.LogIsPrefix`), and equals it once the pass is done,
 * however the pass was cut into frames (`SameResultResumedOrForced`).
 */
module PlacementScheduling {
  import opened PlacementEngine
  import opened LayerScheduling

  /** What one call of the pass is given: the layer order, the layers by id, and the tiles per source in natural and Y order. */
  datatype Scene = Scene(
    order: seq<LayerId>,
    layers: map<LayerId, StyleLayer>,
    layerTiles: map<string, seq<Tile>>,
    layerTilesInYOrder: map<string, seq<Tile>>)

  /** A zoom bound that is absent or 0 (falsy) leaves that side of the bracket open. */
  predicate Unbounded(bound: Option<real>) {
    bound.None? || bound.value == 0.0
  }

  /** A layer takes part in placement: a symbol layer whose zoom bracket (inclusive minzoom, exclusive maxzoom) holds `zoom`. */
  predicate Qualifies(layer: StyleLayer, zoom: real) {
    layer.kind == "symbol" &&
    (Unbounded(layer.minzoom) || layer.minzoom.value <= zoom) &&
    (Unbounded(layer.maxzoom) || layer.maxzoom.value > zoom)
  }

  /** The tile list a layer's source offers: the Y-ordered one when the layer elevates its symbols. */
  predicate HasTiles(scene: Scene, layer: StyleLayer) {
    if layer.symbolZElevate then layer.source in scene.layerTilesInYOrder else layer.source in scene.layerTiles
  }

  function TilesFor(scene: Scene, layer: StyleLayer): seq<Tile>
    requires HasTiles(scene, layer)
  {
    if layer.symbolZElevate then scene.layerTilesInYOrder[layer.source] else scene.layerTiles[layer.source]
  }

  /** Every id in the order names a layer, and every qualifying layer's source has the tile list it needs. */
  predicate WellFormed(scene: Scene, zoom: real) {
    forall i :: 0 <= i < |scene.order| ==>
      scene.order[i] in scene.layers &&
      (Qualifies(scene.layers[scene.order[i]], zoom) ==> HasTiles(scene, scene.layers[scene.order[i]]))
  }

  function LayerAt(scene: Scene, zoom: real, i: nat): StyleLayer
    requires WellFormed(scene, zoom) && i < |scene.order|
  {
    scene.layers[scene.order[i]]
  }

  /** The log of the layer at index `i` of the order: its run if it qualifies, nothing otherwise. */
  function LayerLog(scene: Scene, zoom: real, showCollisionBoxes: bool, i: nat): seq<WorkItem>
    requires WellFormed(scene, zoom) && i < |scene.order|
  {
    var layer := LayerAt(scene, zoom, i);
    if Qualifies(layer, zoom) then LayerRun(layer, TilesFor(scene, layer), showCollisionBoxes) else []
  }

  /** The log of the layers at indices `k` and above, visited from the top of the order down. */
  function DoneLog(scene: Scene, zoom: real, showCollisionBoxes: bool, k: nat): seq<WorkItem>
    requires WellFormed(scene, zoom) && k <= |scene.order|
    decreases |scene.order| - k
  {
    if k == |scene.order| then [] else DoneLog(scene, zoom, showCollisionBoxes, k + 1) + LayerLog(scene, zoom, showCollisionBoxes, k)
  }

  /** The work log of one uninterrupted pass. */
  function PassLog(scene: Scene, zoom: real, showCollisionBoxes: bool): seq<WorkItem>
    requires WellFormed(scene, zoom)
  {
    DoneLog(scene, zoom, showCollisionBoxes, 0)
  }

  /** The layers done so far form a prefix of the pass. */
  lemma {:induction false} DoneLogIsPrefix(scene: Scene, zoom: real, showCollisionBoxes: bool, k: nat)
    requires WellFormed(scene, zoom) && k <= |scene.order|
    ensures DoneLog(scene, zoom, showCollisionBoxes, k) <= PassLog(scene, zoom, showCollisionBoxes)
    decreases k
  {
    if k > 0 {
      DoneLogIsPrefix(scene, zoom, showCollisionBoxes, k - 1);
      PrefixTrans(DoneLog(scene, zoom, showCollisionBoxes, k), DoneLog(scene, zoom, showCollisionBoxes, k - 1),
        PassLog(scene, zoom, showCollisionBoxes));
    }
  }

  lemma PrefixTrans<T>(a: seq<T>, b: seq<T>, c: seq<T>)
    requires a <= b && b <= c
    ensures a <= c
  {
    assert c[..|b|][..|a|] == c[..|a|];
  }

  lemma PrefixAppend<T>(a: seq<T>, b: seq<T>, c: seq<T>)
    requires b <= c
    ensures a + b <= a + c
  {
    assert (a + c)[..|a + b|] == a + c[..|b|];
  }

  /** A prefix never holds more units of work than the sequence it starts. */
  lemma PrefixUnits(a: seq<WorkItem>, b: seq<WorkItem>)
    requires a <= b
    ensures CountUnits(a) <= CountUnits(b)
  {
    assert b == a + b[|a|..];
    CountUnitsAppend(a, b[|a|..]);
  }

  /** The answers of this call's pause checks: never pause when the pass is forced, else whether the frame's time is spent. */
  function PauseAnswers(forceFullPlacement: bool, clock: Clock): Clock {
    if forceFullPlacement then Clock([]) else clock
  }

  /** The answers left after the first `k`. */
  function Drop(answers: Clock, k: nat): Clock {
    if k <= |answers.timeUp| then Clock(answers.timeUp[k..]) else Clock([])
  }

  /** The `j`-th answer left after `k` is the `(k + j)`-th answer. */
  lemma DropPause(answers: Clock, k: nat, j: nat)
    ensures Pause(Drop(answers, k), j) == Pause(answers, k + j)
  {
  }

  /**
   * The checks a layer makes after the first `base` of a call read the
   * answers from `base` on: its pause and its run of answers that said no
   * carry over to the call's numbering.
   */
  lemma ShiftedChecks(answers: Clock, base: nat, paused: bool, queries: nat)
    requires NoPause(answers, 0, base) && Stopped(Drop(answers, base), paused, queries)
    ensures Stopped(answers, paused, base + queries)
  {
    var n := if paused then queries - 1 else queries;
    if paused {
      DropPause(answers, base, queries - 1);
    }
    forall j | base <= j < base + n
      ensures !Pause(answers, j)
    {
      DropPause(answers, base, j - base);
    }
  }

  /** The units of work in the log grow with the layer's tile and part cursors. */
  lemma LayerUnits(above: seq<WorkItem>, current: LayerPlacement, tiles: seq<Tile>, layer: StyleLayer, showCollisionBoxes: bool)
    requires current.Valid(tiles, layer)
    ensures CountUnits(above + current.Logged(tiles, layer, showCollisionBoxes)) ==
      CountUnits(above) + current.currentTileIndex + current.currentPartIndex
  {
    current.LoggedUnits(tiles, layer, showCollisionBoxes);
    CountUnitsAppend(above, current.Logged(tiles, layer, showCollisionBoxes));
  }

  /** A layer whose collection, sort and evaluation are all over has logged its whole run. */
  lemma LayerFinished(current: LayerPlacement, tiles: seq<Tile>, layer: StyleLayer, showCollisionBoxes: bool)
    requires current.Valid(tiles, layer)
    requires current.currentTileIndex == |tiles| && !current.sortAcrossTiles && current.currentPartIndex == |current.bucketParts|
    ensures current.Logged(tiles, layer, showCollisionBoxes) == LayerRun(layer, tiles, showCollisionBoxes)
  {
    current.LoggedIsPrefix(tiles, layer, showCollisionBoxes);
    current.LoggedIsComplete(tiles, layer, showCollisionBoxes);
  }

  /**
   * The layer at index `i` of the order is part-way through: `current` is a
   * valid state of it, and `log` holds the runs of the layers above it
   * followed by what `current` has logged.
   */
  ghost predicate Resumable(scene: Scene, zoom: real, showCollisionBoxes: bool, i: int, current: LayerPlacement, log: seq<WorkItem>)
    reads current
  {
    WellFormed(scene, zoom) && 0 <= i < |scene.order| &&
    var layer := LayerAt(scene, zoom, i);
    Qualifies(layer, zoom) &&
    current.Valid(TilesFor(scene, layer), layer) &&
    log == DoneLog(scene, zoom, showCollisionBoxes, i + 1) + current.Logged(TilesFor(scene, layer), layer, showCollisionBoxes)
  }

  /**
   * The layer at index `i` is placed until it pauses or finishes; its pause
   * checks follow the `base` checks the call has already made.
   */
  method PlaceLayer(ghost scene: Scene, ghost i: int, current: LayerPlacement, placement: Placement, showCollisionBoxes: bool,
                    layer: StyleLayer, tiles: seq<Tile>, answers: Clock, base: nat)
    returns (paused: bool, queries: nat)
    requires Resumable(scene, placement.zoom, showCollisionBoxes, i, current, placement.log)
    requires NoPause(answers, 0, base)
    requires layer == LayerAt(scene, placement.zoom, i) && tiles == TilesFor(scene, layer)
    modifies current, placement`log
    ensures Resumable(scene, placement.zoom, showCollisionBoxes, i, current, placement.log)
    ensures CountUnits(placement.log) == CountUnits(old(placement.log)) + queries
    ensures Stopped(answers, paused, base + queries)
    ensures !paused ==> placement.log == DoneLog(scene, placement.zoom, showCollisionBoxes, i)
  {
    ghost var above := DoneLog(scene, placement.zoom, showCollisionBoxes, i + 1);
    LayerUnits(above, current, tiles, layer, showCollisionBoxes);
    paused, queries := current.ContinuePlacement(tiles, placement, showCollisionBoxes, layer, Drop(answers, base), above);
    ShiftedChecks(answers, base, paused, queries);
    LayerUnits(above, current, tiles, layer, showCollisionBoxes);
    if !paused {
      LayerFinished(current, tiles, layer, showCollisionBoxes);
    }
  }

  /** The resumable state of one placement pass. */
  class PauseablePlacement {
    const placement: Placement
    var done: bool
    var currentPlacementIndex: int
    const forceFullPlacement: bool
    const showCollisionBoxes: bool
    var inProgressLayer: LayerPlacement?

    /**
     * The layers above the cursor are done and the one at the cursor, when
     * it has a state, is resumable from it; the log holds exactly that work.
     * Once done, the cursor is below every layer.
     */
    ghost predicate Valid(scene: Scene)
      reads this, inProgressLayer, placement`log
    {
      WellFormed(scene, placement.zoom) &&
      -1 <= currentPlacementIndex < |scene.order| &&
      (done ==> currentPlacementIndex == -1) &&
      if inProgressLayer == null then
        placement.log == DoneLog(scene, placement.zoom, showCollisionBoxes, currentPlacementIndex + 1)
      else
        Resumable(scene, placement.zoom, showCollisionBoxes, currentPlacementIndex, inProgressLayer, placement.log)
    }

    /** What has been logged is a prefix of the uninterrupted pass. */
    lemma LogIsPrefix(scene: Scene)
      requires Valid(scene)
      ensures placement.log <= PassLog(scene, placement.zoom, showCollisionBoxes)
    {
      var zoom := placement.zoom;
      var k := currentPlacementIndex + 1;
      var above := DoneLog(scene, zoom, showCollisionBoxes, k);
      if inProgressLayer == null {
        DoneLogIsPrefix(scene, zoom, showCollisionBoxes, k);
      } else {
        var layer := LayerAt(scene, zoom, currentPlacementIndex);
        var tiles := TilesFor(scene, layer);
        inProgressLayer.LoggedIsPrefix(tiles, layer, showCollisionBoxes);
        var run := LayerRun(layer, tiles, showCollisionBoxes);
        PrefixAppend(above, inProgressLayer.Logged(tiles, layer, showCollisionBoxes), run);
        assert above + run == DoneLog(scene, zoom, showCollisionBoxes, currentPlacementIndex);
        DoneLogIsPrefix(scene, zoom, showCollisionBoxes, currentPlacementIndex);
        PrefixTrans(placement.log, above + run, PassLog(scene, zoom, showCollisionBoxes));
      }
    }

    constructor (zoom: real, order: seq<LayerId>, forceFullPlacement: bool, showCollisionBoxes: bool)
      ensures fresh(placement) && placement.zoom == zoom && placement.log == [] && placement.committedAt == None
      ensures currentPlacementIndex == |order| - 1 && !done && inProgressLayer == null
      ensures this.forceFullPlacement == forceFullPlacement && this.showCollisionBoxes == showCollisionBoxes
      ensures forall scene: Scene :: scene.order == order && WellFormed(scene, zoom) ==> Valid(scene)
    {
      placement := new Placement(zoom);
      currentPlacementIndex := |order| - 1;
      this.forceFullPlacement := forceFullPlacement;
      this.showCollisionBoxes := showCollisionBoxes;
      done := false;
      inProgressLayer := null;
    }

    predicate IsDone()
      reads this
    {
      done
    }

    /** A finished pass has logged exactly the uninterrupted pass. */
    lemma DoneMeansComplete(scene: Scene)
      requires Valid(scene) && IsDone()
      ensures placement.log == PassLog(scene, placement.zoom, showCollisionBoxes)
    {
    }

    /** A layer that does not qualify is passed over: only the cursor moves. */
    method SkipLayer(ghost scene: Scene)
      requires Valid(scene) && 0 <= currentPlacementIndex
      requires !Qualifies(LayerAt(scene, placement.zoom, currentPlacementIndex), placement.zoom)
      modifies this`currentPlacementIndex
      ensures Valid(scene) && inProgressLayer == null
      ensures currentPlacementIndex == old(currentPlacementIndex) - 1
    {
      currentPlacementIndex := currentPlacementIndex - 1;
      assert placement.log == DoneLog(scene, placement.zoom, showCollisionBoxes, currentPlacementIndex + 1) + [];
    }

    /** A layer reached for the first time gets a fresh placement state, which has logged nothing. */
    method StartLayer(ghost scene: Scene, layer: StyleLayer)
      requires Valid(scene) && 0 <= currentPlacementIndex && inProgressLayer == null
      requires layer == LayerAt(scene, placement.zoom, currentPlacementIndex) && Qualifies(layer, placement.zoom)
      modifies this`inProgressLayer
      ensures Valid(scene) && fresh(inProgressLayer)
    {
      var started := new LayerPlacement(layer);
      started.Started(TilesFor(scene, layer), layer, showCollisionBoxes);
      assert placement.log == DoneLog(scene, placement.zoom, showCollisionBoxes, currentPlacementIndex + 1) +
        started.Logged(TilesFor(scene, layer), layer, showCollisionBoxes);
      assert Resumable(scene, placement.zoom, showCollisionBoxes, currentPlacementIndex, started, placement.log);
      inProgressLayer := started;
    }

    /** The layer at the cursor gets a placement state, unless one was kept from an earlier frame. */
    method EnterLayer(ghost scene: Scene, layer: StyleLayer)
      requires Valid(scene) && 0 <= currentPlacementIndex
      requires layer == LayerAt(scene, placement.zoom, currentPlacementIndex) && Qualifies(layer, placement.zoom)
      modifies this`inProgressLayer
      ensures Valid(scene) && inProgressLayer != null
      ensures old(inProgressLayer) != null ==> inProgressLayer == old(inProgressLayer)
      ensures old(inProgressLayer) == null ==> fresh(inProgressLayer)
    {
      if inProgressLayer == null {
        StartLayer(scene, layer);
      }
    }

    /** A finished layer's state is dropped and the cursor moves down. */
    method LeaveLayer(ghost scene: Scene)
      requires WellFormed(scene, placement.zoom) && 0 <= currentPlacementIndex < |scene.order| && !done
      requires placement.log == DoneLog(scene, placement.zoom, showCollisionBoxes, currentPlacementIndex)
      modifies this`inProgressLayer, this`currentPlacementIndex
      ensures Valid(scene) && inProgressLayer == null
      ensures currentPlacementIndex == old(currentPlacementIndex) - 1
    {
      inProgressLayer := null;
      currentPlacementIndex := currentPlacementIndex - 1;
      assert placement.log == DoneLog(scene, placement.zoom, showCollisionBoxes, currentPlacementIndex + 1) + [];
    }

    /**
     * The layer at the cursor, which qualifies, is placed from its kept state
     * or from a fresh one until it pauses, keeping its state, or finishes,
     * dropping its state and moving the cursor down.
     */
    method PlaceQualifyingLayer(scene: Scene, layer: StyleLayer, tiles: seq<Tile>, answers: Clock, base: nat)
      returns (paused: bool, queries: nat)
      requires Valid(scene) && 0 <= currentPlacementIndex && NoPause(answers, 0, base)
      requires layer == LayerAt(scene, placement.zoom, currentPlacementIndex) && Qualifies(layer, placement.zoom)
      requires tiles == TilesFor(scene, layer)
      modifies this`inProgressLayer, this`currentPlacementIndex, inProgressLayer, placement`log
      ensures Valid(scene)
      ensures CountUnits(placement.log) == CountUnits(old(placement.log)) + queries
      ensures Stopped(answers, paused, base + queries)
      ensures paused ==> currentPlacementIndex == old(currentPlacementIndex) && inProgressLayer != null
      ensures paused ==> inProgressLayer == old(inProgressLayer) || fresh(inProgressLayer)
      ensures !paused ==> currentPlacementIndex == old(currentPlacementIndex) - 1 && inProgressLayer == null
    {
      EnterLayer(scene, layer);
      paused, queries := PlaceLayer(scene, currentPlacementIndex, inProgressLayer, placement, showCollisionBoxes,
                                    layer, tiles, answers, base);
      if !paused {
        LeaveLayer(scene);
      }
    }

    /**
     * One turn of the pass's loop: the layer at the cursor, if it qualifies,
     * is placed until a pause check (numbered after the `base` ones the call
     * has made) says to stop, or it finishes; a
     * finished or skipped layer moves the cursor down.
     */
    method PlaceNextLayer(scene: Scene, answers: Clock, base: nat)
      returns (paused: bool, queries: nat)
      requires Valid(scene) && 0 <= currentPlacementIndex && NoPause(answers, 0, base)
      modifies this`inProgressLayer, this`currentPlacementIndex, inProgressLayer, placement`log
      ensures Valid(scene)
      ensures CountUnits(placement.log) == CountUnits(old(placement.log)) + queries
      ensures Stopped(answers, paused, base + queries)
      // on a pause the cursor stays on the layer, whose state is kept for the next frame
      ensures paused ==> currentPlacementIndex == old(currentPlacementIndex) && inProgressLayer != null
      ensures paused ==> inProgressLayer == old(inProgressLayer) || fresh(inProgressLayer)
      // otherwise the layer is done (or skipped), its state dropped, and the cursor moves down
      ensures !paused ==> currentPlacementIndex == old(currentPlacementIndex) - 1 && inProgressLayer == null
      // a layer that does not qualify is skipped without any pause check
      ensures !Qualifies(scene.layers[scene.order[old(currentPlacementIndex)]], placement.zoom) ==>
        !paused && queries == 0 && placement.log == old(placement.log)
    {
      var layerId := scene.order[currentPlacementIndex];
      var layer := scene.layers[layerId];
      if Qualifies(layer, placement.zoom) {
        var zOffset := layer.symbolZElevate;
        var tiles := if zOffset then scene.layerTilesInYOrder[layer.source] else scene.layerTiles[layer.source];
        paused, queries := PlaceQualifyingLayer(scene, layer, tiles, answers, base);
      } else {
        SkipLayer(scene);
        paused, queries := false, 0;
      }
    }

    /**
     * The pass's loop: layers are placed from the cursor down until one
     * pauses or none is left; `Pause(answers, j)` says whether the `j`-th
     * pause check of the call finds the time spent.
     */
    method PlaceLayers(scene: Scene, answers: Clock)
      returns (paused: bool, checks: nat)
      requires Valid(scene)
      modifies this`inProgressLayer, this`currentPlacementIndex, inProgressLayer, placement`log
      ensures Valid(scene)
      ensures CountUnits(placement.log) == CountUnits(old(placement.log)) + checks
      ensures Stopped(answers, paused, checks)
      ensures paused ==> inProgressLayer != null
      ensures !paused ==> currentPlacementIndex == -1
      ensures currentPlacementIndex <= old(currentPlacementIndex)
      ensures inProgressLayer == null || inProgressLayer == old(inProgressLayer) || fresh(inProgressLayer)
    {
      paused, checks := false, 0;
      while 0 <= currentPlacementIndex && !paused
        invariant Valid(scene)
        invariant CountUnits(placement.log) == CountUnits(old(placement.log)) + checks
        invariant Stopped(answers, paused, checks)
        invariant paused ==> inProgressLayer != null
        invariant currentPlacementIndex <= old(currentPlacementIndex)
        invariant inProgressLayer == null || inProgressLayer == old(inProgressLayer) || fresh(inProgressLayer)
        decreases currentPlacementIndex + 1, if paused then 0 else 1
      {
        var queries;
        paused, queries := PlaceNextLayer(scene, answers, checks);
        checks := checks + queries;
      }
    }

    /**
     * Places layers, from the cursor down, until the frame's time is spent
     * (`clock` says, for each pause check of this call, whether the time is
     * spent then) or every layer is placed. A forced pass never pauses.
     */
    method ContinuePlacement(order: seq<LayerId>, layers: map<LayerId, StyleLayer>, layerTiles: map<string, seq<Tile>>,
                             layerTilesInYOrder: map<string, seq<Tile>>, clock: Clock)
      returns (checks: nat)
      requires Valid(Scene(order, layers, layerTiles, layerTilesInYOrder))
      modifies this, inProgressLayer, placement`log
      ensures Valid(Scene(order, layers, layerTiles, layerTilesInYOrder))
      // exactly one pause check after each unit of work, and no check for a skipped layer
      ensures CountUnits(placement.log) == CountUnits(old(placement.log)) + checks
      // the pass stops only right after the first check that finds the time spent
      ensures !done ==> 0 < checks && Pause(PauseAnswers(forceFullPlacement, clock), checks - 1)
      ensures forall j :: 0 <= j < (if done then checks else checks - 1) ==> !Pause(PauseAnswers(forceFullPlacement, clock), j)
      // and keeps its layer for the next frame
      ensures !done ==> inProgressLayer != null
      // once every layer is placed the pass is done, with the log of an uninterrupted pass
      ensures done ==> placement.log == PassLog(Scene(order, layers, layerTiles, layerTilesInYOrder), placement.zoom, showCollisionBoxes)
      ensures forceFullPlacement ==> done
      // a finished pass stays finished and does nothing more
      ensures old(done) ==> done && checks == 0 && placement.log == old(placement.log)
      ensures inProgressLayer == null || inProgressLayer == old(inProgressLayer) || fresh(inProgressLayer)
    {
      var answers := PauseAnswers(forceFullPlacement, clock);
      if done {
        DoneMeansComplete(Scene(order, layers, layerTiles, layerTilesInYOrder));
      }
      var paused;
      paused, checks := PlaceLayers(Scene(order, layers, layerTiles, layerTilesInYOrder), answers);
      if !paused {
        done := true;
        DoneMeansComplete(Scene(order, layers, layerTiles, layerTilesInYOrder));
      }
    }

    /** Finalises the decisions made so far and hands back the placement. */
    method Commit(now: int) returns (committed: Placement)
      modifies placement`committedAt
      ensures committed == placement && placement.committedAt == Some(now)
    {
      placement.Commit(now);
      committed := placement;
    }
  }

  /** With both bounds set (and not 0), a symbol layer takes part exactly on the half-open bracket [minzoom, maxzoom). */
  lemma ZoomBracket(layer: StyleLayer, zoom: real)
    requires layer.kind == "symbol"
    requires layer.minzoom.Some? && layer.minzoom.value != 0.0
    requires layer.maxzoom.Some? && layer.maxzoom.value != 0.0
    ensures Qualifies(layer, zoom) <==> layer.minzoom.value <= zoom < layer.maxzoom.value
  {
  }

  /** A symbol layer with minzoom 5 and maxzoom 10 is placed at zoom 5 and 9.9, and skipped at 4 and 10. */
  lemma ZoomBracketExample(layer: StyleLayer)
    requires layer.kind == "symbol" && layer.minzoom == Some(5.0) && layer.maxzoom == Some(10.0)
    ensures Qualifies(layer, 5.0) && Qualifies(layer, 9.9)
    ensures !Qualifies(layer, 4.0) && !Qualifies(layer, 10.0)
  {
    ZoomBracket(layer, 5.0);
    ZoomBracket(layer, 9.9);
    ZoomBracket(layer, 4.0);
    ZoomBracket(layer, 10.0);
  }

  /** A bound of 0 is falsy, so it leaves its side open just as a missing bound does. */
  lemma ZeroBoundIsOpen(layer: StyleLayer, zoom: real)
    ensures Qualifies(layer.(minzoom := Some(0.0)), zoom) == Qualifies(layer.(minzoom := None), zoom)
    ensures Qualifies(layer.(maxzoom := Some(0.0)), zoom) == Qualifies(layer.(maxzoom := None), zoom)
  {
  }

  /** Only symbol layers are placed. */
  lemma OnlySymbolLayers(layer: StyleLayer, zoom: real)
    requires layer.kind != "symbol"
    ensures !Qualifies(layer, zoom)
  {
  }

  /** A forced pass finishes in one call, with the log of an uninterrupted pass. */
  method ForcedPass(scene: Scene, zoom: real, showCollisionBoxes: bool) returns (pass: PauseablePlacement)
    requires WellFormed(scene, zoom)
    ensures fresh(pass) && pass.IsDone() && pass.Valid(scene)
    ensures pass.placement.log == PassLog(scene, zoom, showCollisionBoxes)
  {
    pass := new PauseablePlacement(zoom, scene.order, true, showCollisionBoxes);
    var _ := pass.ContinuePlacement(scene.order, scene.layers, scene.layerTiles, scene.layerTilesInYOrder, Clock([]));
  }

  /**
   * A pass resumed frame after frame until it is done: `frames[k]` gives the
   * answers of the pause checks during the `k`-th call (frames past the list
   * never run out of time). The pass always ends, since every call that does
   * not finish does at least one more unit of work.
   */
  method ResumedPass(scene: Scene, zoom: real, showCollisionBoxes: bool, frames: seq<Clock>)
    returns (pass: PauseablePlacement, calls: nat)
    requires WellFormed(scene, zoom)
    ensures fresh(pass) && pass.IsDone() && pass.Valid(scene)
    ensures pass.placement.log == PassLog(scene, zoom, showCollisionBoxes)
  {
    pass := new PauseablePlacement(zoom, scene.order, false, showCollisionBoxes);
    calls := 0;
    while !pass.IsDone()
      invariant fresh(pass) && fresh(pass.placement) && pass.Valid(scene)
      invariant pass.placement.zoom == zoom && pass.showCollisionBoxes == showCollisionBoxes
      invariant pass.inProgressLayer == null || fresh(pass.inProgressLayer)
      decreases if pass.done then 0 else 1,
        CountUnits(PassLog(scene, zoom, showCollisionBoxes)) - CountUnits(pass.placement.log)
    {
      var clock := if calls < |frames| then frames[calls] else Clock([]);
      var _ := pass.ContinuePlacement(scene.order, scene.layers, scene.layerTiles, scene.layerTilesInYOrder, clock);
      pass.LogIsPrefix(scene);
      PrefixUnits(pass.placement.log, PassLog(scene, zoom, showCollisionBoxes));
      calls := calls + 1;
    }
    pass.DoneMeansComplete(scene);
  }

  /** However a pass is cut into frames, it logs the same work, in the same order, as a forced one. */
  method SameResultResumedOrForced(scene: Scene, zoom: real, showCollisionBoxes: bool, frames: seq<Clock>)
    returns (forced: PauseablePlacement, resumed: PauseablePlacement)
    requires WellFormed(scene, zoom)
    ensures forced.IsDone() && resumed.IsDone()
    ensures resumed.placement.log == forced.placement.log
  {
    forced := ForcedPass(scene, zoom, showCollisionBoxes);
    var calls;
    resumed, calls := ResumedPass(scene, zoom, showCollisionBoxes, frames);
  }
}
