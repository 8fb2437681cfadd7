/**
 * The map-wide zoom bounds pushed after a committed detail change.
 *
 * Over the layers in map order, the declared maximum zooms of the tracked
 * layers are folded with `max` starting from -1, and their declared minimum
 * zooms with `min` starting from 1e30. Both results are pushed to the map,
 * even when no layer is tracked and only the seeds remain.
 */
module ZoomBounds {
  import opened LayerConfig

  /** Seed of the maximum-zoom fold. */
  const MaxZoomSeed := -1
  /** Seed of the minimum-zoom fold: the double value of the literal 1e30. */
  const MinZoomSeed := 1000000000000000019884624838656

  /** One step of the maximum fold: a tracked layer raises the running
      maximum to its declared maximum zoom. */
  function MaxZoomStep(soFar: int, o: Options): (r: int)
    ensures r >= soFar
    ensures o.hasZoomOffset ==> r >= o.maxZoom && (r == soFar || r == o.maxZoom)
    ensures !o.hasZoomOffset ==> r == soFar
  {
    if o.hasZoomOffset && o.maxZoom > soFar then o.maxZoom else soFar
  }

  /** One step of the minimum fold: a tracked layer lowers the running
      minimum to its declared minimum zoom. */
  function MinZoomStep(soFar: int, o: Options): (r: int)
    ensures r <= soFar
    ensures o.hasZoomOffset ==> r <= o.minZoom && (r == soFar || r == o.minZoom)
    ensures !o.hasZoomOffset ==> r == soFar
  {
    if o.hasZoomOffset && o.minZoom < soFar then o.minZoom else soFar
  }

  /** The map's maximum zoom for layers `os`, folded in map order. */
  function MaxZoomFold(os: seq<Options>): int
  {
    if os == [] then MaxZoomSeed
    else MaxZoomStep(MaxZoomFold(os[..|os| - 1]), os[|os| - 1])
  }

  /** The map's minimum zoom for layers `os`, folded in map order. */
  function MinZoomFold(os: seq<Options>): int
  {
    if os == [] then MinZoomSeed
    else MinZoomStep(MinZoomFold(os[..|os| - 1]), os[|os| - 1])
  }

  /** The pushed maximum zoom is the largest declared maximum of a tracked
      layer, and never below the seed: it bounds every tracked layer's
      declared maximum from above and is the seed or one of them. */
  lemma {:induction false} MaxZoomFoldIsMaximum(os: seq<Options>)
    ensures MaxZoomFold(os) >= MaxZoomSeed
    ensures forall i :: 0 <= i < |os| && os[i].hasZoomOffset ==> os[i].maxZoom <= MaxZoomFold(os)
    ensures MaxZoomFold(os) == MaxZoomSeed
      || exists i :: 0 <= i < |os| && os[i].hasZoomOffset && os[i].maxZoom == MaxZoomFold(os)
  {
    if os != [] {
      var init := os[..|os| - 1];
      MaxZoomFoldIsMaximum(init);
      assert forall i :: 0 <= i < |init| ==> init[i] == os[i];
    }
  }

  /** The pushed minimum zoom is the smallest declared minimum of a tracked
      layer, and never above the seed. */
  lemma {:induction false} MinZoomFoldIsMinimum(os: seq<Options>)
    ensures MinZoomFold(os) <= MinZoomSeed
    ensures forall i :: 0 <= i < |os| && os[i].hasZoomOffset ==> MinZoomFold(os) <= os[i].minZoom
    ensures MinZoomFold(os) == MinZoomSeed
      || exists i :: 0 <= i < |os| && os[i].hasZoomOffset && os[i].minZoom == MinZoomFold(os)
  {
    if os != [] {
      var init := os[..|os| - 1];
      MinZoomFoldIsMinimum(init);
      assert forall i :: 0 <= i < |init| ==> init[i] == os[i];
    }
  }

  /** Without a tracked layer the seeds themselves are pushed, so the map's
      minimum zoom ends up far above its maximum zoom. */
  lemma {:induction false} NoTrackedLayerPushesSeeds(os: seq<Options>)
    requires forall i :: 0 <= i < |os| ==> !os[i].hasZoomOffset
    ensures MaxZoomFold(os) == MaxZoomSeed && MinZoomFold(os) == MinZoomSeed
    ensures MinZoomFold(os) > MaxZoomFold(os)
  {
    if os != [] {
      NoTrackedLayerPushesSeeds(os[..|os| - 1]);
    }
  }

  /** With at least one tracked layer whose declared range is ordered and
      within the seeds, the folded bounds are ordered too. */
  lemma TrackedLayerOrdersBounds(os: seq<Options>, k: int)
    requires 0 <= k < |os| && os[k].hasZoomOffset
    requires forall i :: 0 <= i < |os| && os[i].hasZoomOffset ==>
      os[i].minZoom <= os[i].maxZoom
    ensures MinZoomFold(os) <= MaxZoomFold(os)
  {
    MaxZoomFoldIsMaximum(os);
    MinZoomFoldIsMinimum(os);
    assert MinZoomFold(os) <= os[k].minZoom <= os[k].maxZoom <= MaxZoomFold(os);
  }

  /** The folds read only the tracked flag and the declared zoom range, so the
      per-layer rewrite leaves them as they were. */
  lemma {:induction false} FoldsIgnoreRetune(os: seq<Options>, rs: seq<Options>, n: int)
    requires |rs| == |os|
    requires forall i :: 0 <= i < |os| ==> rs[i] == Retune(os[i], n)
    ensures MaxZoomFold(rs) == MaxZoomFold(os) && MinZoomFold(rs) == MinZoomFold(os)
  {
    if os != [] {
      FoldsIgnoreRetune(os[..|os| - 1], rs[..|rs| - 1], n);
    }
  }
}
