/**
 * The detail-level control: a Leaflet control that shifts every tracked tile
 * layer's zoom offset by one shared, bounded counter.
 *
 * The host map and its tile layers are objects that the control rewrites in
 * place: a layer's options bag is a field of class `Layer`, and the map's
 * layer list and the two zoom bounds it receives are fields of class
 * `LeafletMap`. Leaflet's grid and view resets are recorded as counters.
 */
module DetailLevelControl {
  import opened TileGeometry
  import opened LayerConfig
  import opened OffsetRange
  import opened ZoomBounds

  /** A tile layer: its options bag, and how many times its grid was reset. */
  class Layer {
    var options: Options
    var gridResets: nat

    constructor (options: Options)
      ensures this.options == options && gridResets == 0
    {
      this.options := options;
      gridResets := 0;
    }
  }

  /** The options bags of `layers`, in order. */
  ghost function OptionsOf(layers: seq<Layer>): (os: seq<Options>)
    reads layers
    ensures |os| == |layers|
    ensures forall i :: 0 <= i < |layers| ==> os[i] == layers[i].options
  {
    seq(|layers|, i reads layers requires 0 <= i < |layers| => layers[i].options)
  }

  /** The host map: its layers in iteration order, the zoom bounds last pushed
      to it (None until the first push), and how many times its view was
      rebuilt. */
  class LeafletMap {
    var layers: seq<Layer>
    var maxZoom: Option<int>
    var minZoom: Option<int>
    var viewResets: nat

    /** A layer is on the map at most once. */
    ghost predicate Valid()
      reads this
    {
      forall i, j :: 0 <= i < j < |layers| ==> layers[i] != layers[j]
    }

    constructor ()
      ensures Valid() && layers == []
      ensures maxZoom == None && minZoom == None && viewResets == 0
    {
      layers := [];
      maxZoom, minZoom := None, None;
      viewResets := 0;
    }

    /** Adds a layer; a layer already on the map is not added again. */
    method AddLayer(layer: Layer)
      requires Valid()
      modifies this`layers
      ensures Valid()
      ensures layers == if layer in old(layers) then old(layers) else old(layers) + [layer]
    {
      if layer !in layers {
        layers := layers + [layer];
      }
    }
  }

  class Controller {
    /** The offset shared by all tracked layers. */
    var internalOffsetCounter: int
    var minOffset: int
    var maxOffset: int
    /** Held while the map is loading; every change request is then ignored. */
    var updateLock: bool
    /** The map the control was added to; null before that. */
    var hostMap: LeafletMap?
    /** The number the control displays between its two buttons. */
    var shownCount: int

    /** The counter starts at `defaultLevel` as given; a missing bound (None)
        takes its default and a given one is clamped. */
    constructor (defaultLevel: int, minOffsetArg: Option<int>, maxOffsetArg: Option<int>)
      ensures internalOffsetCounter == defaultLevel
      ensures minOffset == MinOffsetBound(minOffsetArg)
      ensures maxOffset == MaxOffsetBound(maxOffsetArg)
      ensures !updateLock && hostMap == null
    {
      internalOffsetCounter := defaultLevel;
      maxOffset := MaxOffsetBound(maxOffsetArg);
      minOffset := MinOffsetBound(minOffsetArg);
      updateLock := false;
      hostMap := null;
      shownCount := 0;
    }

    /** The map started loading: block changes. */
    method OnMapStartLoad()
      modifies this`updateLock
      ensures updateLock
    {
      updateLock := true;
    }

    /** The map finished loading: allow changes again. */
    method OnMapFinishLoad()
      modifies this`updateLock
      ensures !updateLock
    {
      updateLock := false;
    }

    /** The control is added to `m`; its display starts at 0 whatever the
        counter is. */
    method OnAdd(m: LeafletMap)
      modifies this`hostMap, this`shownCount
      ensures hostMap == m && shownCount == 0
    {
      hostMap := m;
      shownCount := 0;
    }

    /** Whether the counter may change by `delta` (the global range test).
        It decides the counter after an unlocked request: moved by `delta`
        when it holds, kept otherwise. A refresh (delta 0) passes exactly when
        the counter is in range. */
    predicate CanChangeDetail(delta: int): (r: bool)
      reads this
      ensures r ==> NextOffset(internalOffsetCounter, delta, minOffset, maxOffset) == internalOffsetCounter + delta
      ensures !r ==> NextOffset(internalOffsetCounter, delta, minOffset, maxOffset) == internalOffsetCounter
      ensures delta == 0 ==> (r <==> InRange(internalOffsetCounter, minOffset, maxOffset))
    {
      CanApply(internalOffsetCounter, delta, minOffset, maxOffset)
    }

    /** Attaches the snapshot to `layer`'s options unless it already has one. */
    method AttachDirtToLayer(layer: Layer)
      modifies layer`options
      ensures layer.options == AttachDirt(old(layer.options))
    {
      if layer.options.detailInfo.Some? {
        return;
      }
      var o := layer.options;
      var dirt := Snapshot(o.tileSize, o.maxZoom, o.minZoom, o.maxNativeZoom, o.minNativeZoom, o.zoomOffset);
      layer.options := o.(detailInfo := Some(dirt));
    }

    /** The per-layer step of a committed change (the callback given to the
        map's layer iteration): a tracked layer gets its snapshot, is rebased
        from it for `newOffset`, has its grid reset, and its declared zoom
        range is folded into the running bounds; an untracked layer is
        skipped. */
    method RetuneLayer(layer: Layer, newOffset: int, maxSoFar: int, minSoFar: int)
      returns (overallMaxZoom: int, overallMinZoom: int)
      modifies layer
      ensures layer.options == Retune(old(layer.options), newOffset)
      ensures layer.gridResets == old(layer.gridResets) + if old(layer.options).hasZoomOffset then 1 else 0
      ensures overallMaxZoom == MaxZoomStep(maxSoFar, old(layer.options))
      ensures overallMinZoom == MinZoomStep(minSoFar, old(layer.options))
    {
      overallMaxZoom, overallMinZoom := maxSoFar, minSoFar;
      if layer.options.hasZoomOffset {
        AttachDirtToLayer(layer);
        var native := layer.options.detailInfo.value;

        layer.options := layer.options.(tileSize := ScaledTileSize(native.tileSize, newOffset));
        layer.options := layer.options.(zoomOffset := native.zoomOffset + newOffset);

        if native.maxNativeZoom.Some? {
          layer.options := layer.options.(maxNativeZoom := Some(native.maxNativeZoom.value - newOffset));
        } else {
          layer.options := layer.options.(maxNativeZoom := Some(native.maxZoom - newOffset));
        }
        overallMaxZoom := Max(overallMaxZoom, layer.options.maxZoom);

        if native.minNativeZoom.Some? {
          layer.options := layer.options.(minNativeZoom := Some(native.minNativeZoom.value - newOffset));
        } else {
          layer.options := layer.options.(minNativeZoom := Some(native.minZoom - newOffset));
        }
        overallMinZoom := Min(overallMinZoom, layer.options.minZoom);

        layer.gridResets := layer.gridResets + 1;
      }
    }

    /** The map's layer iteration of a committed change: every layer in
        order goes through RetuneLayer, and the running bounds start from the
        seeds. Afterwards every layer holds Retune of its old options, each
        tracked grid was reset once, and the bounds are the two folds. */
    method RetuneLayers(layers: seq<Layer>, newOffset: int)
      returns (overallMaxZoom: int, overallMinZoom: int)
      requires forall i, j :: 0 <= i < j < |layers| ==> layers[i] != layers[j]
      modifies layers
      ensures forall j :: 0 <= j < |layers| ==>
        layers[j].options == Retune(old(layers[j].options), newOffset)
      ensures forall j :: 0 <= j < |layers| ==>
        layers[j].gridResets == old(layers[j].gridResets) + if old(layers[j].options).hasZoomOffset then 1 else 0
      ensures overallMaxZoom == MaxZoomFold(old(OptionsOf(layers)))
      ensures overallMinZoom == MinZoomFold(old(OptionsOf(layers)))
    {
      overallMaxZoom, overallMinZoom := MaxZoomSeed, MinZoomSeed;
      ghost var before := OptionsOf(layers);
      var i := 0;
      while i < |layers|
        invariant 0 <= i <= |layers|
        invariant forall j :: 0 <= j < i ==> layers[j].options == Retune(before[j], newOffset)
        invariant forall j :: i <= j < |layers| ==> layers[j].options == before[j]
        invariant forall j :: 0 <= j < i ==>
          layers[j].gridResets == old(layers[j].gridResets) + if before[j].hasZoomOffset then 1 else 0
        invariant forall j :: i <= j < |layers| ==> layers[j].gridResets == old(layers[j].gridResets)
        invariant overallMaxZoom == MaxZoomFold(before[..i])
        invariant overallMinZoom == MinZoomFold(before[..i])
      {
        overallMaxZoom, overallMinZoom := RetuneLayer(layers[i], newOffset, overallMaxZoom, overallMinZoom);
        assert before[..i + 1][..i] == before[..i];
        i := i + 1;
      }
      assert before[..|layers|] == before;
    }

    /** Everything one request to change the detail by `delta` does, from the
        old state to the current one. The request commits when the lock is
        free and the new counter is in range. A commit moves the counter by
        `delta`, shows it, retunes every layer from its snapshot for the new
        counter, resets the grid of every tracked layer, pushes the folded zoom
        bounds to `m` and rebuilds its view. Otherwise nothing changes. The
        bounds, the lock and the map's layer list never change. */
    twostate predicate DetailChanged(m: LeafletMap, delta: int)
      reads this, m, m.layers
    {
      var committed := !old(updateLock) && old(CanChangeDetail(delta));
      && minOffset == old(minOffset) && maxOffset == old(maxOffset)
      && updateLock == old(updateLock) && hostMap == old(hostMap)
      && m.layers == old(m.layers)
      && internalOffsetCounter == (if committed then old(internalOffsetCounter) + delta else old(internalOffsetCounter))
      && shownCount == (if committed then internalOffsetCounter else old(shownCount))
      && (forall i :: 0 <= i < |m.layers| ==>
            m.layers[i].options ==
              if committed then Retune(old(m.layers[i].options), internalOffsetCounter)
              else old(m.layers[i].options))
      && (forall i :: 0 <= i < |m.layers| ==>
            m.layers[i].gridResets ==
              old(m.layers[i].gridResets) + if committed && old(m.layers[i].options).hasZoomOffset then 1 else 0)
      && m.maxZoom == (if committed then Some(MaxZoomFold(old(OptionsOf(m.layers)))) else old(m.maxZoom))
      && m.minZoom == (if committed then Some(MinZoomFold(old(OptionsOf(m.layers)))) else old(m.minZoom))
      && m.viewResets == old(m.viewResets) + if committed then 1 else 0
    }

    /** The committed branch of a change request: the lock is free and the
        moved counter is in range. */
    method Commit(delta: int)
      requires hostMap != null && hostMap.Valid()
      requires !updateLock && CanChangeDetail(delta)
      modifies this`internalOffsetCounter, this`shownCount
      modifies hostMap`maxZoom, hostMap`minZoom, hostMap`viewResets, hostMap.layers
      ensures DetailChanged(hostMap, delta)
    {
      internalOffsetCounter := internalOffsetCounter + delta;
      var newOffset := internalOffsetCounter;
      shownCount := internalOffsetCounter;

      var overallMaxZoom, overallMinZoom := RetuneLayers(hostMap.layers, newOffset);
      hostMap.maxZoom := Some(overallMaxZoom);
      hostMap.minZoom := Some(overallMinZoom);
      hostMap.viewResets := hostMap.viewResets + 1;
    }

    /** Requests a change of the detail by `delta`. */
    method ChangeDetail(delta: int)
      requires hostMap != null && hostMap.Valid()
      modifies this`internalOffsetCounter, this`shownCount
      modifies hostMap`maxZoom, hostMap`minZoom, hostMap`viewResets, hostMap.layers
      ensures DetailChanged(hostMap, delta)
      ensures old(updateLock) ==> internalOffsetCounter == old(internalOffsetCounter)
      ensures !old(updateLock) ==>
        internalOffsetCounter == NextOffset(old(internalOffsetCounter), delta, minOffset, maxOffset)
      ensures InRange(old(internalOffsetCounter), minOffset, maxOffset) ==>
        InRange(internalOffsetCounter, minOffset, maxOffset)
    {
      if updateLock {
        return;
      }
      if CanChangeDetail(delta) {
        Commit(delta);
      }
    }

    /** The "more detail" button. */
    method IncreaseDetail()
      requires hostMap != null && hostMap.Valid()
      modifies this`internalOffsetCounter, this`shownCount
      modifies hostMap`maxZoom, hostMap`minZoom, hostMap`viewResets, hostMap.layers
      ensures DetailChanged(hostMap, 1)
      ensures !old(updateLock) ==>
        internalOffsetCounter == NextOffset(old(internalOffsetCounter), 1, minOffset, maxOffset)
      ensures InRange(old(internalOffsetCounter), minOffset, maxOffset) ==>
        InRange(internalOffsetCounter, minOffset, maxOffset)
    {
      ChangeDetail(1);
    }

    /** The "less detail" button. */
    method DecreaseDetail()
      requires hostMap != null && hostMap.Valid()
      modifies this`internalOffsetCounter, this`shownCount
      modifies hostMap`maxZoom, hostMap`minZoom, hostMap`viewResets, hostMap.layers
      ensures DetailChanged(hostMap, -1)
      ensures !old(updateLock) ==>
        internalOffsetCounter == NextOffset(old(internalOffsetCounter), -1, minOffset, maxOffset)
      ensures InRange(old(internalOffsetCounter), minOffset, maxOffset) ==>
        InRange(internalOffsetCounter, minOffset, maxOffset)
    {
      ChangeDetail(-1);
    }

    /** Re-applies the current counter to every layer, picking up layers added
        since the last change (the handler of the map's layer-added event). */
    method Refresh()
      requires hostMap != null && hostMap.Valid()
      modifies this`internalOffsetCounter, this`shownCount
      modifies hostMap`maxZoom, hostMap`minZoom, hostMap`viewResets, hostMap.layers
      ensures DetailChanged(hostMap, 0)
      ensures !old(updateLock) ==>
        internalOffsetCounter == NextOffset(old(internalOffsetCounter), 0, minOffset, maxOffset)
      ensures InRange(old(internalOffsetCounter), minOffset, maxOffset) ==>
        InRange(internalOffsetCounter, minOffset, maxOffset)
    {
      ChangeDetail(0);
    }
  }
}
