# L.Control.DetailLevel in Dafny

A Dafny model of the Leaflet plugin `L.Control.DetailLevel`, with proofs. The
control lets a user change the rendered detail of every tracked tile layer
of a map at once. It keeps one signed offset, the counter, that is bounded
at construction. Each committed change rewrites each tracked layer's options
so that:

- the tile size is scaled by 2^-offset, rounded to the nearest integer;
- the zoom offset grows by the offset;
- the native zoom range moves down by the offset.

Every rewrite starts from a snapshot of the layer's original options,
recorded the first time the control meets the layer. It never starts from
the values already rewritten. After the rewrite the control pushes map-wide
zoom bounds folded from the layers' declared ranges. A lock set while the
map is loading makes every request a no-op.

Files and modules:

- `tile_geometry.dfy` (`TileGeometry`): `Math.round(Math.pow(2, -n) * t)`
  written exactly with integers, and its nearest-integer characterisation.
  Also the round trip from less detail back to more, and the halving and
  doubling of the tile size between adjacent offsets.
- `layer_config.dfy` (`LayerConfig`): the options bag and the snapshot as
  datatypes. `AttachDirt` records the snapshot once. `Retune` is the whole
  effect of one commit on one layer. The lemmas cover snapshot-once,
  rewriting only from the snapshot (idempotent refresh), and conservation
  of `zoomOffset + maxNativeZoom` and of the minimum-side sum.
- `offset_range.dfy` (`OffsetRange`): the constructor's clamping of the
  bounds, the range test, and the counter after a request. It also covers
  repeated presses saturating at the bounds.
- `zoom_bounds.dfy` (`ZoomBounds`): the max/min folds seeded with `-1` and
  `1e30`, and what they give with and without tracked layers.
- `detail_level_control.dfy` (`DetailLevelControl`): the classes `Layer`
  (an options bag rewritten in place), `LeafletMap` (its layer list, the
  pushed bounds, view resets) and `Controller` (the counter, the bounds, the
  lock, the map, the shown number). `ChangeDetail` walks the map's layers
  in a loop. It is proved against the two-state predicate `DetailChanged`,
  which states the whole new state in terms of `Retune` and the folds.
- `scenarios.dfy` (`Scenarios`): clients that use only the contracts. They
  cover:
  - three presses reaching the default maximum 3, with a fourth press
    ignored;
  - a press from 1 to 2 rebasing a layer for offset 2 and resetting its
    grid once;
  - a press during loading being ignored, and the same press committing
    once loading has finished;
  - a layer added at offset 2 being rebased from its own values;
  - a refresh of a layer already rebased for the current offset changing
    nothing, so a second refresh is a no-op.

Three behaviours of the code are worth spelling out:

- The range test `canChangeDetail` returns right after the global range
  check (leaflet.control.detaillevel.js:93-97). The per-layer check after it
  (:99-116) never runs, so the model checks only `minOffset <= counter +
  delta <= maxOffset`.
- The map bounds are pushed unguarded (:180-181), even when no layer is
  tracked. The seeds then reach the map: a maximum zoom of -1 and a minimum
  zoom of 1e30. Lemma `ZoomBounds.NoTrackedLayerPushesSeeds` states this.
- `defaultLevel` is not clamped (:25). A counter that starts two or more
  steps outside the bounds is never moved by a button or a refresh, so no
  layer is ever rewritten. Lemma `OffsetRange.FarOutsideIsInert` states
  this.

`1e30` is the double nearest to 10^30, so it is modelled as the integer
1000000000000000019884624838656.

## Model

| member | source | states |
|---|---|---|
| TileGeometry.ScaledTileSize | leaflet.control.detaillevel.js:151 | for a positive offset n the new tile size r satisfies r·2^n − 2^(n−1) ≤ t < r·2^n + 2^(n−1) (nearest integer, halves up, as `Math.round`); for n ≤ 0 it is t·2^−n exactly |
| TileGeometry.NearestIsUnique | leaflet.control.detaillevel.js:151 | the nearest-integer characterisation determines the tile size uniquely |
| TileGeometry.ScaleUpThenDown | leaflet.control.detaillevel.js:151 | scaling a tile size up for offset −n and back down for offset n restores it exactly (a property of the rounding; the control never composes it) |
| TileGeometry.HalvingAbove | leaflet.control.detaillevel.js:151 | above offset 0, one more step of detail halves the tile size within ±1 |
| TileGeometry.HalvingBelow | leaflet.control.detaillevel.js:151 | below offset 0, one more step of detail halves the tile size exactly |
| TileGeometry.AdjacentOffsets | leaflet.control.detaillevel.js:151 | at every offset, adjacent tile sizes differ from a factor 2 by at most 1, exactly 2 below offset 0 |
| LayerConfig.AttachDirt | leaflet.control.detaillevel.js:119-130 | afterwards a snapshot exists; an existing one is kept untouched; a new one records the six current values; nothing else in the bag changes |
| LayerConfig.SnapshotOnce | leaflet.control.detaillevel.js:119-120 | attaching twice equals attaching once; an existing snapshot is never overwritten |
| LayerConfig.Retune | leaflet.control.detaillevel.js:146-176 | an untracked layer is left alone; a tracked one keeps its tracked flag and declared zoom range and carries the snapshot AttachDirt gives it |
| LayerConfig.RetuneEffect | leaflet.control.detaillevel.js:148-172 | a tracked layer gets zoom offset = snapshot's + n, conserves zoomOffset + native max and zoomOffset + native min (the snapshot's native value, or its declared zoom when absent), and gets the snapshot's tile size scaled for n |
| LayerConfig.RetuneFromSnapshot | leaflet.control.detaillevel.js:148-172 | rewriting for offset n a layer already rewritten for any m gives the rewrite for n of the original: no drift across changes |
| LayerConfig.RetuneIdempotent | leaflet.control.detaillevel.js:188-190 | re-applying the same offset (refresh) leaves the configuration identical |
| LayerConfig.ConservedAcrossOffsets | leaflet.control.detaillevel.js:153-172 | for a tracked layer, zoomOffset + maxNativeZoom and zoomOffset + minNativeZoom are the same at every offset |
| LayerConfig.FirstRetuneUsesOwnValues | leaflet.control.detaillevel.js:119-172 | a layer met for the first time is rebased from its own current values (its snapshot records them) |
| LayerConfig.OffsetTwoExample | leaflet.control.detaillevel.js:151-164 | a 256-pixel layer with native maximum 18 at offset 2 gets tile size 64, zoom offset 2, native maximum 16 |
| OffsetRange.MaxOffsetBound | leaflet.control.detaillevel.js:28 | the upper bound is 3 when absent, otherwise at least 0 and at least the argument, and either the argument or 0: max(arg, 0) |
| OffsetRange.MinOffsetBound | leaflet.control.detaillevel.js:29 | the lower bound is 0 when absent, otherwise at least −10 and at least the argument, and either the argument or −10: max(arg, −10) |
| OffsetRange.CanApply | leaflet.control.detaillevel.js:92-97 | a change is allowed only when the bounds do not cross; a refresh (delta 0) is allowed exactly when the counter is already in range |
| OffsetRange.NextOffset | leaflet.control.detaillevel.js:92-97 | the counter either stays or moves by delta; a moved counter is in range; a counter in range stays in range; an in-range target is always taken |
| OffsetRange.IncreasesSaturate | leaflet.control.detaillevel.js:82-83 | k presses of "more detail" from an in-range counter give min(counter + k, maxOffset) |
| OffsetRange.DecreasesSaturate | leaflet.control.detaillevel.js:87-88 | k presses of "less detail" from an in-range counter give max(counter − k, minOffset) |
| OffsetRange.DefaultBoundsStopAtThree | leaflet.control.detaillevel.js:27-29 | with default bounds, three presses from 0 reach 3 and a fourth stays at 3 |
| OffsetRange.CrossedBoundsFreeze | leaflet.control.detaillevel.js:94-96 | when the lower bound exceeds the upper one no request moves the counter |
| OffsetRange.FarOutsideIsInert | leaflet.control.detaillevel.js:25-29 | a counter two or more steps outside the bounds (possible because defaultLevel is not clamped) stays where it is under any number of presses or refreshes |
| ZoomBounds.MaxZoomStep | leaflet.control.detaillevel.js:166 | a tracked layer raises the running maximum to at least its declared maximum, to one of the two; an untracked one leaves it |
| ZoomBounds.MinZoomStep | leaflet.control.detaillevel.js:173 | a tracked layer lowers the running minimum to at most its declared minimum, to one of the two; an untracked one leaves it |
| ZoomBounds.MaxZoomFoldIsMaximum | leaflet.control.detaillevel.js:142-180 | the pushed maximum zoom is ≥ −1, ≥ every tracked layer's declared maximum, and is −1 or one of them |
| ZoomBounds.MinZoomFoldIsMinimum | leaflet.control.detaillevel.js:143-181 | the pushed minimum zoom is ≤ 1e30, ≤ every tracked layer's declared minimum, and is 1e30 or one of them |
| ZoomBounds.NoTrackedLayerPushesSeeds | leaflet.control.detaillevel.js:142-143 | without tracked layers the seeds −1 and 1e30 are pushed, so the minimum exceeds the maximum |
| ZoomBounds.TrackedLayerOrdersBounds | leaflet.control.detaillevel.js:166-173 | with a tracked layer and ordered declared ranges, the pushed minimum is ≤ the pushed maximum |
| ZoomBounds.FoldsIgnoreRetune | leaflet.control.detaillevel.js:151-173 | the folds are the same before and after the per-layer rewrite |
| DetailLevelControl.Controller.constructor | leaflet.control.detaillevel.js:20-33 | counter = defaultLevel unclamped, bounds clamped as above, lock free |
| DetailLevelControl.Controller.OnMapStartLoad | leaflet.control.detaillevel.js:35-38 | the lock is held |
| DetailLevelControl.Controller.OnMapFinishLoad | leaflet.control.detaillevel.js:40-43 | the lock is free |
| DetailLevelControl.Controller.OnAdd | leaflet.control.detaillevel.js:50-62 | the control is attached to the map and shows 0 |
| DetailLevelControl.Controller.CanChangeDetail | leaflet.control.detaillevel.js:92-97 | when the range test passes the next counter is counter + delta, otherwise the counter is kept (ties the test to NextOffset); a refresh (delta 0) passes exactly when the counter is in range |
| DetailLevelControl.Controller.AttachDirtToLayer | leaflet.control.detaillevel.js:119-130 | the layer's options become AttachDirt of the old ones (snapshot once) |
| DetailLevelControl.Controller.RetuneLayer | leaflet.control.detaillevel.js:145-177 | the layer's options become Retune of the old ones, a tracked layer's grid is reset once, the running bounds take one fold step |
| DetailLevelControl.Controller.RetuneLayers | leaflet.control.detaillevel.js:142-177 | after the walk over the map's layers every layer holds Retune of its old options, each tracked grid was reset once, and the running bounds are the two folds of the old options from the seeds |
| DetailLevelControl.Controller.Commit | leaflet.control.detaillevel.js:135-186 | a committed change moves the counter by delta, shows it, retunes every layer, pushes the folded bounds and rebuilds the view |
| DetailLevelControl.Controller.ChangeDetail | leaflet.control.detaillevel.js:132-187 | locked or out of range: nothing changes; unlocked, the counter becomes NextOffset of the old one; a commit moves it by delta into range, shows it, every layer becomes Retune(old, counter), tracked grids reset, folded bounds pushed, view rebuilt; an in-range counter stays in range |
| DetailLevelControl.Controller.IncreaseDetail | leaflet.control.detaillevel.js:82-85 | ChangeDetail with delta 1: the counter becomes NextOffset(counter, 1) when unlocked and stays in range |
| DetailLevelControl.Controller.DecreaseDetail | leaflet.control.detaillevel.js:87-90 | ChangeDetail with delta −1: the counter becomes NextOffset(counter, −1) when unlocked and stays in range |
| DetailLevelControl.Controller.Refresh | leaflet.control.detaillevel.js:188-190 | ChangeDetail with delta 0: the counter is kept, the layers are rewritten for it when it is in range |

## Left out

- DOM construction, the buttons and `evt.stopPropagation`. These are user-interface wiring. The displayed number is kept as the field `shownCount`.
- Registration of the `layeradd`, `loading` and `load` listeners. These are host event plumbing. The handlers themselves (`Refresh`, `OnMapStartLoad`, `OnMapFinishLoad`) are modelled. The scenarios call `Refresh` after `AddLayer` where the map would fire `layeradd`.
- Leaflet's `map.addLayer` is Leaflet code, not part of this model. `LeafletMap.AddLayer` is scaffolding for the scenarios only.
- `layer._resetGrid()` and `map._resetView(map.getCenter(), map.getZoom())` are Leaflet internals. They are recorded only as the counters `gridResets` and `viewResets`.
- The unreachable per-layer block of `canChangeDetail` (leaflet.control.detaillevel.js:99-116). It never runs and it reads Leaflet's private `_tileZoom`.
- Floating point. `Math.pow` and `Math.round` are modelled exactly over the integers. This matches the doubles at every offset where the rewrite at leaflet.control.detaillevel.js:151 runs: it runs only after the range test passes, so the offset is at least `minOffset >= -10` and `Math.pow(2, -n)` is at most 1024. Tile sizes beyond 2^53 are not modelled.
- JavaScript values other than integers: `NaN`, `Infinity`, and a tile size given as a point. An undefined `defaultLevel`, tile size or declared zoom range is not modelled either. Every such field is an integer here, and native zooms are `Option<int>`.
- DetailLevelControl.Controller.ChangeDetail: requires the control to be attached to a map. Before `onAdd`, the source raises a TypeError at `this.countShow.innerText` after it has already moved the counter. The buttons and listeners that call it exist only after `onAdd`.
- Snapshots of layers removed from the map are neither tracked nor dropped. The source keeps each snapshot in the layer's own options bag, so the snapshot goes away with the layer.
