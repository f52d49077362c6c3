/** End-to-end behaviours that combine several handlers and store operations. */
module Scenarios {
  import opened Types
  import opened Services
  import opened GeoJson
  import opened MapState
  import opened Polygons
  import opened Objects
  import opened Session
  import opened MapView

  /** The world after four clicks in polygon mode, starting empty. */
  function FourClicks(a: GeoPoint, b: GeoPoint, c: GeoPoint, d: GeoPoint): World
  {
    var w0 := InitialWorld.(ui := WithDrawingMode(InitialUi, DrawingMode.Polygon));
    ClickStep(ClickStep(ClickStep(ClickStep(w0, a, ""), b, ""), c, ""), d, "")
  }

  /** Four clicks buffer the four points; the double-click turns them into one polygon held
      in both lists, and empties the buffer. */
  lemma FourClicksThenDoubleClick(a: GeoPoint, b: GeoPoint, c: GeoPoint, d: GeoPoint, stamp: string)
    ensures FourClicks(a, b, c, d).polygons.currentDrawingPoints == [a, b, c, d]
    ensures var added := NewPolygon(InitialPolygons, [[a, b, c, d]], stamp);
      DoubleClickStep(FourClicks(a, b, c, d), stamp).polygons == PolygonState([added], [added], [])
  {
    var w4 := FourClicks(a, b, c, d);
    assert w4.polygons.currentDrawingPoints == [a, b, c, d];
    DoubleClickFinishesPolygon(w4, stamp);
  }

  /** Starting empty in polygon mode, four clicks on an open outline and a double-click
      create one polygon, held in both lists. Saving it sends one polygon whose single ring
      is closed: five positions, the four clicked points as `[lng, lat]` and then the first
      point again. After the save the unsaved list is empty, and a reload shows only the
      server's data. */
  lemma CreateSaveReload(a: GeoPoint, b: GeoPoint, c: GeoPoint, d: GeoPoint, stamp: string,
                         data: seq<MapPolygonResponse>)
    requires a != d
    ensures var w5 := DoubleClickStep(FourClicks(a, b, c, d), stamp);
      var e := SavePolygonsStep(w5.polygons, w5.ui, Resolved(()));
      && |w5.polygons.polygons| == 1 && |w5.polygons.newPolygons| == 1
      && w5.polygons.polygons[0].id == "poly-" + stamp
      && |e.calls| == 1 && e.calls[0].PolygonsSaveBulk? && |e.calls[0].polygons| == 1
      && e.calls[0].polygons[0].coordinates
         == [[[a.lng, a.lat], [b.lng, b.lat], [c.lng, c.lat], [d.lng, d.lat], [a.lng, a.lat]]]
      && e.store.newPolygons == []
      && LoadPolygonsStep(e.store, e.ui, Resolved(data)).store.polygons == DecodePolygons(data)
  {
    FourClicksThenDoubleClick(a, b, c, d, stamp);
    var ring := [a, b, c, d];
    var added := NewPolygon(InitialPolygons, [ring], stamp);
    assert Encodable([added]);
    assert ToGeoJsonPolygons([added])[0].coordinates == [EncodeRing(ring)];
    assert !IsClosed(ring);
    assert EncodeRing(ring) == [[a.lng, a.lat], [b.lng, b.lat], [c.lng, c.lat], [d.lng, d.lat], [a.lng, a.lat]];
  }

  /** One persisted object and one placed locally: deleting the local one makes no call and
      leaves just the persisted one; deleting the persisted one then makes exactly one call,
      with its id, and on success leaves no object. */
  lemma DeleteUnsavedThenPersisted(s: ObjectState, ui: UiState, persisted: MapObject, point: GeoPoint,
                                   freshId: string, reply: Reply<()>)
    requires s.objects == [persisted] && s.newObjects == [] && persisted.id != freshId
    ensures var placed := AddObjectLocalStep(s, point, s.selectedIcon, freshId);
      var first := DeleteObjectStep(placed, ui, freshId, reply);
      var second := DeleteObjectStep(first.store, first.ui, persisted.id, Resolved(()));
      && |placed.objects| == 2
      && first.calls == [] && first.store.objects == [persisted] && first.store.newObjects == []
      && second.calls == [ObjectsDelete(persisted.id)] && second.store.objects == []
  {
    var placed := AddObjectLocalStep(s, point, s.selectedIcon, freshId);
    DeleteUnsavedObjectIsLocal(placed, ui, freshId, reply);
    var first := DeleteObjectStep(placed, ui, freshId, reply);
    assert first.store.objects == [persisted] by {
      assert placed.objects == [persisted, placed.objects[1]];
    }
  }

  /** A failed load of either collection keeps it and ends with loading off and a
      non-empty error, as long as a rejected `Error` carries a non-empty message. */
  lemma FailedLoadKeepsCollections(p: PolygonState, o: ObjectState, ui: UiState, reason: Rejection)
    requires reason.ErrorInstance? ==> reason.message != ""
    ensures var ep := LoadPolygonsStep(p, ui, Rejected(reason));
      && ep.store == p && !ep.ui.isLoading && ep.ui.error.Some? && ep.ui.error.value != ""
    ensures var eo := LoadObjectsStep(o, ui, Rejected(reason));
      && eo.store == o && !eo.ui.isLoading && eo.ui.error.Some? && eo.ui.error.value != ""
  {
  }
}
