/**
 * The per-layer configuration rewrite of the detail-level control.
 *
 * A tile layer's options bag holds its tile size, its declared zoom range,
 * its optional native zoom range and its zoom offset. The first time the
 * control meets a layer that carries a zoom offset it records those values
 * (the snapshot); every later rewrite is computed from that snapshot and the
 * control's current offset only, never from the values already rewritten.
 */
module LayerConfig {
  import opened TileGeometry

  datatype Option<T> = None | Some(value: T) {
    /** The value, or `default` when absent (`undefined !== v ? v : default`). */
    function GetOr(default: T): T {
      match this
      case Some(v) => v
      case None => default
    }
  }

  /** A layer's original configuration, recorded once. */
  datatype Snapshot = Snapshot(
    tileSize: int,
    maxZoom: int,
    minZoom: int,
    maxNativeZoom: Option<int>,
    minNativeZoom: Option<int>,
    zoomOffset: int)

  /** The part of a layer's options bag the control reads and writes.
      `hasZoomOffset` is whether the bag has a `zoomOffset` entry at all; only
      such layers are tracked. `detailInfo` is the snapshot attached to the bag. */
  datatype Options = Options(
    hasZoomOffset: bool,
    tileSize: int,
    maxZoom: int,
    minZoom: int,
    zoomOffset: int,
    maxNativeZoom: Option<int>,
    minNativeZoom: Option<int>,
    detailInfo: Option<Snapshot>)

  /** The highest zoom the layer's source serves without scaling, before any
      offset: its native maximum, or its declared maximum when it has none. */
  function NativeMax(s: Snapshot): int {
    s.maxNativeZoom.GetOr(s.maxZoom)
  }

  /** The lowest native zoom before any offset, likewise. */
  function NativeMin(s: Snapshot): int {
    s.minNativeZoom.GetOr(s.minZoom)
  }

  /** `s` holds exactly the six values of `o` that the control records. */
  predicate Records(s: Snapshot, o: Options) {
    && s.tileSize == o.tileSize
    && s.maxZoom == o.maxZoom
    && s.minZoom == o.minZoom
    && s.maxNativeZoom == o.maxNativeZoom
    && s.minNativeZoom == o.minNativeZoom
    && s.zoomOffset == o.zoomOffset
  }

  /** The options after attaching the snapshot: a bag that has one keeps it,
      a bag without one gets a record of its own current values. Nothing but
      the snapshot entry changes. */
  function AttachDirt(o: Options): (r: Options)
    ensures r.detailInfo.Some?
    ensures o.detailInfo.Some? ==> r == o
    ensures o.detailInfo.None? ==> Records(r.detailInfo.value, o)
    ensures r.(detailInfo := o.detailInfo) == o
  {
    if o.detailInfo.Some? then o
    else
      o.(detailInfo := Some(Snapshot(
        o.tileSize, o.maxZoom, o.minZoom, o.maxNativeZoom, o.minNativeZoom, o.zoomOffset)))
  }

  /** The options of a layer that has snapshot `s`, shown at offset `n`. */
  function Rebased(o: Options, s: Snapshot, n: int): Options {
    o.(tileSize := ScaledTileSize(s.tileSize, n),
       zoomOffset := s.zoomOffset + n,
       maxNativeZoom := Some(NativeMax(s) - n),
       minNativeZoom := Some(NativeMin(s) - n))
  }

  /** What one committed detail change at offset `n` does to a layer's
      options: untracked layers are left alone; a tracked layer gets its
      snapshot (once) and is rebased from it. The tracked flag and the
      declared zoom range are never rewritten. */
  function Retune(o: Options, n: int): (r: Options)
    ensures !o.hasZoomOffset ==> r == o
    ensures r.hasZoomOffset == o.hasZoomOffset
    ensures r.maxZoom == o.maxZoom && r.minZoom == o.minZoom
    ensures o.hasZoomOffset ==> r.detailInfo == AttachDirt(o).detailInfo
  {
    if !o.hasZoomOffset then o
    else
      var d := AttachDirt(o);
      Rebased(d, d.detailInfo.value, n)
  }

  /** The effect of a rewrite at offset `n` on a tracked layer: the offset is
      applied on top of the snapshot's zoom offset, the native range moves
      down by the same amount so the gauge-independent zoom range of the
      source is conserved, and the tile size is the snapshot's scaled for
      `n`. */
  lemma RetuneEffect(o: Options, n: int)
    requires o.hasZoomOffset
    ensures var r := Retune(o, n);
      var s := r.detailInfo.value;
      && r.zoomOffset - s.zoomOffset == n
      && r.maxNativeZoom.Some? && r.minNativeZoom.Some?
      && r.zoomOffset + r.maxNativeZoom.value == s.zoomOffset + NativeMax(s)
      && r.zoomOffset + r.minNativeZoom.value == s.zoomOffset + NativeMin(s)
      && r.tileSize == ScaledTileSize(s.tileSize, n)
  {
  }

  /** Attaching the snapshot twice is attaching it once. */
  lemma SnapshotOnce(o: Options)
    ensures AttachDirt(AttachDirt(o)) == AttachDirt(o)
    ensures o.detailInfo.Some? ==> AttachDirt(o).detailInfo == o.detailInfo
  {
  }

  /** A rewrite depends only on the snapshot and the new offset: rewriting
      layers already shown at offset m for offset n gives what rewriting the
      original layer for n gives. No drift accumulates over repeated changes. */
  lemma RetuneFromSnapshot(o: Options, m: int, n: int)
    ensures Retune(Retune(o, m), n) == Retune(o, n)
  {
  }

  /** Re-applying the current offset (a refresh) changes nothing further. */
  lemma RetuneIdempotent(o: Options, n: int)
    ensures Retune(Retune(o, n), n) == Retune(o, n)
  {
    RetuneFromSnapshot(o, n, n);
  }

  /** For a tracked layer, `zoomOffset + maxNativeZoom` (and the minimum-side
      sum) is the same at every offset: only the split between offset and
      native zoom moves. */
  lemma ConservedAcrossOffsets(o: Options, m: int, n: int)
    requires o.hasZoomOffset
    ensures Retune(o, m).zoomOffset + Retune(o, m).maxNativeZoom.value
         == Retune(o, n).zoomOffset + Retune(o, n).maxNativeZoom.value
    ensures Retune(o, m).zoomOffset + Retune(o, m).minNativeZoom.value
         == Retune(o, n).zoomOffset + Retune(o, n).minNativeZoom.value
  {
  }

  /** A layer met for the first time is rebased from its own current values. */
  lemma FirstRetuneUsesOwnValues(o: Options, n: int)
    requires o.hasZoomOffset && o.detailInfo.None?
    ensures Records(Retune(o, n).detailInfo.value, o)
    ensures Retune(o, n).tileSize == ScaledTileSize(o.tileSize, n)
    ensures Retune(o, n).zoomOffset == o.zoomOffset + n
    ensures Retune(o, n).maxNativeZoom == Some(o.maxNativeZoom.GetOr(o.maxZoom) - n)
    ensures Retune(o, n).minNativeZoom == Some(o.minNativeZoom.GetOr(o.minZoom) - n)
  {
  }

  /** A 256-pixel layer with native maximum 18 and no zoom offset, shown at
      offset 2, has 64-pixel tiles, zoom offset 2 and native maximum 16. */
  lemma OffsetTwoExample()
    ensures
      var o := Options(true, 256, 18, 0, 0, Some(18), None, None);
      var r := Retune(o, 2);
      r.tileSize == 64 && r.zoomOffset == 2 && r.maxNativeZoom == Some(16)
      && r.minNativeZoom == Some(-2) && r.maxZoom == 18
  {
    assert Pow2(2) == 4 && Pow2(1) == 2;
  }
}
