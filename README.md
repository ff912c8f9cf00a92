# Pauseable symbol placement

A Dafny model of the incremental symbol-placement scheduler of mapbox-gl-js
(`src/style/pauseable_placement.js`). A placement pass visits the style's
layers from the last entry of the layer order down to the first. Each symbol
layer whose zoom bracket holds the current zoom is handed to a
`LayerPlacement`, which works in three phases:

- it collects the bucket parts of every tile;
- it sorts them once across tiles when the layer asks for that;
- it evaluates every part.

After each tile and after each part it asks whether the frame's time budget
is spent. When it is, the whole pass returns and resumes on the next frame
from exactly where it stopped. A forced pass never pauses.

The model keeps the source's shape:

- `LayerPlacement` and `PauseablePlacement` are classes with the source's
  fields and methods.
- The collaborating `Placement` engine is a class whose decisions are
  abstracted into a ghost work log. Every call the scheduler makes into it
  appends one entry: a tile collected, a part evaluated. The cross-tile sort
  is logged too.
- The clock is a `Clock` value. It lists, for each pause check of one call,
  whether the time is spent at that check; checks past the list find time
  left.

The specification side is two functions:

- `LayerRun`, the log of one uninterrupted run of a layer;
- `PassLog`, the log of one uninterrupted pass.

The main results are:

- the log of an interrupted layer or pass is always a prefix of these;
- a finished pass has logged exactly `PassLog`;
- a pass resumed frame after frame, with any clocks, ends and logs the same
  work in the same order as a forced pass (`SameResultResumedOrForced`).

Files:

- `engine.dfy`: module `PlacementEngine`. The data (tiles, bucket parts,
  style layers, work items) and the `Placement` stand-in.
- `sort.dfy`: module `BucketSort`. The cross-tile sort by `sortKey`, a
  stable insertion sort, with its order, permutation and stability lemmas.
- `layer_placement.dfy`: module `LayerScheduling`. `LayerRun`, the
  `Clock` and the `LayerPlacement` class.
- `pauseable_placement.dfy`: module `PlacementScheduling`. The layer
  filter, `PassLog`, the `PauseablePlacement` class, and drivers for a
  forced and a resumed pass.

## Model

| member | source | states |
|---|---|---|
| LayerScheduling.LayerPlacement.constructor | src/style/pauseable_placement.js:23-31 | a new layer placement sorts across tiles exactly when symbol-z-order is not viewport-y and a sort key is set; both cursors are 0, the seen set and the part list are empty |
| LayerScheduling.LayerPlacement.Started | src/style/pauseable_placement.js:23-31 | the initial state is a valid starting point of the layer's run for any tile list, with progress 0 and nothing logged |
| LayerScheduling.LayerPlacement.CollectTile | src/style/pauseable_placement.js:37-40 | one collection step appends the next tile's parts for this layer to the part list, logs that tile, and advances the tile cursor by one |
| LayerScheduling.LayerPlacement.GatherParts | src/style/pauseable_placement.js:36-49 | collects the remaining tiles in order with one pause check per tile, stopping right after the first check that says to pause; when it does not pause, every tile is in and the pending sort has run; the tile cursor never moves back; a finished collection is not redone |
| LayerScheduling.LayerPlacement.SortPending | src/style/pauseable_placement.js:46-49 | the sort clears the flag and replaces the parts by their sort by key, logging one sort |
| LayerScheduling.LayerPlacement.PlacePart | src/style/pauseable_placement.js:52-54 | one evaluation step hands the next part to the engine with the current seen set and firstOfCollection equal to (symbolInstanceStart == 0); the part's cross-tile IDs join the seen set; the part cursor advances by one |
| LayerScheduling.LayerPlacement.PlaceParts | src/style/pauseable_placement.js:51-58 | evaluates the remaining parts in order with one pause check per part, stopping right after the first check that says to pause; when it does not pause, every part is evaluated |
| LayerScheduling.LayerPlacement.ContinuePlacement | src/style/pauseable_placement.js:33-60 | the state stays a valid point of the layer's run and the log grows by exactly the stretch between the old and new points; the cursors never move back and the sort flag is never set again; there is one pause check per unit of work; a true return comes right after the first check that says to pause; a false return means every tile is collected, the sort is done and every part is evaluated; a call on a finished layer is a no-op |
| LayerScheduling.LayerPlacement.LoggedIsPrefix | src/style/pauseable_placement.js:33-60 | what the layer placement has logged so far is the prefix, of length Progress(), of one uninterrupted run of the layer |
| LayerScheduling.LayerPlacement.LoggedIsComplete | src/style/pauseable_placement.js:36-59 | the whole run is logged if and only if all tiles are collected, the sort is not pending and all parts are evaluated |
| LayerScheduling.LayerPlacement.LoggedUnits | src/style/pauseable_placement.js:40-41 | the units of work logged equal the tile cursor plus the part cursor; the sort is not a unit |
| LayerScheduling.LayerRunExactlyOnce | src/style/pauseable_placement.js:36-58 | one run collects every tile exactly once in list order, sorts once if the layer sorts across tiles and never otherwise, and evaluates every final part exactly once in order |
| LayerScheduling.CollectLogProjections | src/style/pauseable_placement.js:36-44 | collecting the first n tiles visits exactly those tiles, in order, and evaluates and sorts nothing |
| LayerScheduling.PlaceLogProjections | src/style/pauseable_placement.js:51-58 | evaluating the first n parts evaluates exactly those parts, in order, and collects and sorts nothing |
| LayerScheduling.PlaceLogFirstOfCollection | src/style/pauseable_placement.js:52-53 | the j-th evaluation is of the j-th part, with the seen set the parts before it built, and firstOfCollection holds if and only if that part's symbolInstanceStart is 0 |
| LayerScheduling.FinalPartsOrder | src/style/pauseable_placement.js:46-49 | the evaluated parts are a permutation of the collected ones; when the layer sorts across tiles they are ordered by key and parts of equal key keep their collection order; otherwise they are exactly the collected parts in collection order |
| BucketSort.SortByKeySorted | src/style/pauseable_placement.js:48 | the sort's result is ordered by non-decreasing sortKey |
| BucketSort.SortByKeyPermutes | src/style/pauseable_placement.js:48 | the sort's result is a permutation of its input |
| BucketSort.SortByKeyStable | src/style/pauseable_placement.js:48 | for every key, the parts with that key appear in the same relative order before and after the sort |
| PlacementEngine.Placement.GetBucketParts | src/style/pauseable_placement.js:38 | the part list is extended by the tile's parts for the layer, and the call is logged with the sort flag it was given |
| PlacementEngine.Placement.PlaceLayerBucketPart | src/style/pauseable_placement.js:53 | the part is logged with its arguments, and its cross-tile IDs are added to the seen set |
| PlacementScheduling.PauseablePlacement.constructor | src/style/pauseable_placement.js:71-85 | a new pass has a fresh placement with an empty log, its cursor on the last layer of the order, is not done, and has no layer in progress; it is a valid state for any well-formed scene with that order |
| PlacementScheduling.PauseablePlacement.LogIsPrefix | src/style/pauseable_placement.js:91-130 | in every valid state, what the pass has logged is a prefix of the uninterrupted pass |
| PlacementScheduling.PauseablePlacement.DoneMeansComplete | src/style/pauseable_placement.js:87-89 | once isDone holds, the log is exactly that of the uninterrupted pass |
| PlacementScheduling.ZoomBracket | src/style/pauseable_placement.js:103-105 | with both bounds set and not 0, a symbol layer qualifies if and only if minzoom <= zoom < maxzoom |
| PlacementScheduling.ZoomBracketExample | src/style/pauseable_placement.js:103-105 | a symbol layer with minzoom 5 and maxzoom 10 is placed at zoom 5 and 9.9 and skipped at zoom 4 and 10 |
| PlacementScheduling.ZeroBoundIsOpen | src/style/pauseable_placement.js:104-105 | a bound of 0 is falsy, so it leaves its side of the bracket open exactly like a missing bound |
| PlacementScheduling.OnlySymbolLayers | src/style/pauseable_placement.js:103 | a layer whose type is not symbol is never placed |
| PlacementScheduling.PauseablePlacement.SkipLayer | src/style/pauseable_placement.js:103-126 | a layer that does not qualify only moves the cursor down by one; nothing is logged |
| PlacementScheduling.PauseablePlacement.StartLayer | src/style/pauseable_placement.js:109-111 | a layer reached with no state kept gets a fresh LayerPlacement |
| PlacementScheduling.PauseablePlacement.EnterLayer | src/style/pauseable_placement.js:109-111 | the kept layer state is reused when there is one; otherwise a fresh one is made |
| PlacementScheduling.PlaceLayer | src/style/pauseable_placement.js:108-113 | the layer is placed with the rest of the call's pause checks and tile list chosen by symbol-z-elevate; the units logged equal the checks made; when it does not pause, the log is that of every layer down to and including this one |
| PlacementScheduling.ShiftedChecks | src/style/pauseable_placement.js:94-97 | all layers of one call share one pause predicate: a layer's checks continue the call's numbering |
| PlacementScheduling.PauseablePlacement.LeaveLayer | src/style/pauseable_placement.js:123-126 | after a layer finishes, its state is dropped and the cursor moves down by one |
| PlacementScheduling.PauseablePlacement.PlaceQualifyingLayer | src/style/pauseable_placement.js:106-126 | on a pause, the cursor stays and the layer state is kept; otherwise the state is dropped and the cursor moves down |
| PlacementScheduling.PauseablePlacement.PlaceNextLayer | src/style/pauseable_placement.js:100-126 | one turn of the loop: on a pause, the cursor and the in-progress layer stay; otherwise the in-progress layer is dropped and the cursor moves down by one; a layer that does not qualify gets no pause check and logs nothing |
| PlacementScheduling.PauseablePlacement.PlaceLayers | src/style/pauseable_placement.js:99-127 | the loop places layers from the cursor down until the first check that says to pause; when it does not pause, the cursor is below every layer; the cursor never rises |
| PlacementScheduling.PauseablePlacement.ContinuePlacement | src/style/pauseable_placement.js:91-130 | there is one pause check per unit of work; the call returns unfinished only right after the first check that finds the time spent, keeping its layer for the next frame; done is set exactly when the cursor runs out of layers, and the log is then that of the uninterrupted pass; a forced pass is done after one call; a done pass stays done and a further call does nothing |
| PlacementScheduling.PauseablePlacement.Commit | src/style/pauseable_placement.js:132-135 | the placement is committed at the given time and returned |
| PlacementScheduling.ForcedPass | src/style/pauseable_placement.js:94-97 | a forced pass finishes in one call, with the log of the uninterrupted pass |
| PlacementScheduling.ResumedPass | src/style/pauseable_placement.js:91-130 | a pass resumed call after call, under any clocks, ends done, with the log of the uninterrupted pass |
| PlacementScheduling.SameResultResumedOrForced | src/style/pauseable_placement.js:91-130 | whatever the frames' clocks, the resumed pass logs the same work in the same order as the forced pass |

## Left out

- The clock: `browser.now()`, the start time and the 2 ms budget are replaced by a `Clock` value per call, listing whether each pause check finds the time spent. Checks past the list find time left.
- `PerformanceUtils.recordPlacementTime`: timing telemetry with no effect on placement.
- Collision detection, fading, the previous placement, fog, the building index and cross-source collisions inside `Placement`:
  - `Placement` keeps only the zoom and a ghost log of the calls it receives.
  - Its constructor takes the zoom in place of the transform and drops the other parameters.
  - `getBucketParts` returns the extended part list; `placeLayerBucketPart` returns the extended seen set. In the source both mutate their arguments in place.
- The sort comparator: the source subtracts numeric sort keys, and the engine's keys may be fractional or missing. The model uses integer keys and a stable insertion sort. `Array.prototype.sort` is stable, so the order of equal keys agrees.
- The layout expressions: `symbol-z-order`, `symbol-sort-key` (`constantOr(1) !== undefined`) and `symbol-z-elevate` are read as plain fields of the style layer.
- Zoom and zoom bounds are real numbers. A bound of 0 counts as missing, as in the source.
- The source stores a layer's part list in an array and sorts it in place. The model keeps a sequence field that it reassigns.
- `delete this._inProgressLayer` is modelled as setting the field to `null`.
- PlacementScheduling.WellFormed: every id in the order must name a layer, and each qualifying layer's source must have a tile list. The source throws a TypeError otherwise; that case is not modelled.
- LayerScheduling.LayerPlacement.ContinuePlacement: requires the same tile list and style layer on every call to one layer placement. The source relies on its caller for this and does not check it.
- PlacementScheduling.PauseablePlacement.ContinuePlacement: requires one style (order, layers and tile lists) across the calls of one pass, for the same reason.
