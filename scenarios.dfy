/**
 * Clients of the control that use nothing but its contracts: what a caller
 * of the buttons, the load notifications and the layer-added refresh can
 * conclude.
 */
module Scenarios {
  import opened LayerConfig
  import opened DetailLevelControl

  /** With the default bounds, three presses of "more detail" reach 3 and a
      fourth changes nothing. */
  method ClimbToTheLimit() {
    var m := new LeafletMap();
    var c := new Controller(0, None, None);
    c.OnAdd(m);
    c.IncreaseDetail();
    c.IncreaseDetail();
    c.IncreaseDetail();
    assert c.internalOffsetCounter == 3 && c.shownCount == 3;
    c.IncreaseDetail();
    assert c.internalOffsetCounter == 3;
  }

  /** A press that takes the counter from 1 to 2 rebases a layer from its
      original options for offset 2 and resets its grid once; for the
      256-pixel layer of OffsetTwoExample that is 64-pixel tiles, zoom offset
      2 and native maximum 16. */
  method PressToOffsetTwo(o: Options) {
    var m := new LeafletMap();
    var layer := new Layer(o);
    m.AddLayer(layer);
    assert m.layers == [layer];
    var c := new Controller(1, None, None);
    c.OnAdd(m);
    c.IncreaseDetail();
    assert c.internalOffsetCounter == 2 && c.shownCount == 2;
    assert layer.options == Retune(o, 2);
    assert o.hasZoomOffset ==> layer.gridResets == 1;
  }

  /** While the map loads, a press is ignored; once loading finishes, the
      same press commits. */
  method PressDuringLoad(o: Options) {
    var m := new LeafletMap();
    var layer := new Layer(o);
    m.AddLayer(layer);
    assert m.layers == [layer];
    var c := new Controller(0, None, None);
    c.OnAdd(m);
    c.OnMapStartLoad();
    c.IncreaseDetail();
    assert c.internalOffsetCounter == 0 && layer.options == o;
    assert layer.gridResets == 0 && m.maxZoom == None && m.viewResets == 0;
    c.OnMapFinishLoad();
    assert c.hostMap == m && m.layers == [layer] && !c.updateLock && c.CanChangeDetail(1);
    c.IncreaseDetail();
    assert c.internalOffsetCounter == 1 && m.viewResets == 1;
  }

  /** At offset 2, a layer added to the map is rebased on the refresh that
      follows from its own values: its snapshot records them and its zoom
      offset moves by 2. */
  method LateLayerJoins(late: Options)
    requires late.hasZoomOffset && late.detailInfo.None?
  {
    var m := new LeafletMap();
    var layer := new Layer(late);
    var c := new Controller(2, None, None);
    c.OnAdd(m);
    m.AddLayer(layer);
    assert m.layers == [layer];
    c.Refresh();
    assert layer.options == Retune(late, 2);
    FirstRetuneUsesOwnValues(late, 2);
    assert Records(layer.options.detailInfo.value, late);
    assert layer.options.zoomOffset == late.zoomOffset + 2;
  }

  /** Refreshing a layer already rebased for the current offset leaves it
      configured as it was: a second refresh changes nothing. */
  method RefreshTwice(o: Options) {
    var m := new LeafletMap();
    var after := Retune(o, 1);
    var layer := new Layer(after);
    var c := new Controller(1, None, None);
    c.OnAdd(m);
    m.AddLayer(layer);
    assert m.layers == [layer];
    c.Refresh();
    assert layer.options == Retune(after, 1);
    RetuneIdempotent(o, 1);
    assert layer.options == after;
  }
}
