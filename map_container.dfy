/** The map's event handlers (src/components/Map/MapContainer.tsx): what a click and a
    double-click mean in each drawing mode, and selection by clicking an entity. */
module MapView {
  import opened Types
  import opened Services
  import opened JsText
  import opened MapState
  import opened Polygons
  import opened Objects
  import opened Session

  /** A map click: a vertex in polygon mode, one object in object mode (after which the
      mode ends), nothing otherwise. */
  function ClickStep(w: World, point: GeoPoint, freshId: string): World
  {
    match w.ui.drawingMode
    case Polygon =>
      w.(polygons := w.polygons.(currentDrawingPoints := w.polygons.currentDrawingPoints + [point]))
    case Object =>
      w.(objects := AddObjectLocalStep(w.objects, point, w.objects.selectedIcon, freshId),
         ui := WithDrawingMode(w.ui, DrawingMode.None))
    case None => w
  }

  /** A map double-click: finishes the polygon in polygon mode once three points are buffered. */
  function DoubleClickStep(w: World, stamp: string): World
  {
    if w.ui.drawingMode == DrawingMode.Polygon && |w.polygons.currentDrawingPoints| >= 3 then
      var e := AddPolygonLocalyStep(w.polygons, w.ui, [w.polygons.currentDrawingPoints], stamp);
      w.(polygons := e.store, ui := WithDrawingMode(e.ui, DrawingMode.None))
    else w
  }

  method MapClick(m: MapStore, p: PolygonStore, o: ObjectStore, point: GeoPoint, freshId: string)
    requires Wired(m, p, o)
    modifies m, p, o
    ensures WorldOf(m, p, o) == ClickStep(old(WorldOf(m, p, o)), point, freshId)
    ensures old(m.Valid()) ==> m.Valid()
  {
    if m.drawingMode == DrawingMode.Polygon {
      p.AddDrawingPoint(point);
    } else if m.drawingMode == DrawingMode.Object {
      var selectedIcon := o.selectedIcon;
      var created := o.AddObjectLocal(point, selectedIcon, freshId);
      m.SetDrawingMode(DrawingMode.None);
    }
  }

  method MapDoubleClick(m: MapStore, p: PolygonStore, o: ObjectStore, stamp: string)
    requires Wired(m, p, o)
    modifies m, p
    ensures WorldOf(m, p, o) == DoubleClickStep(old(WorldOf(m, p, o)), stamp)
    ensures old(m.Valid()) ==> m.Valid()
  {
    if m.drawingMode == DrawingMode.Polygon && |p.currentDrawingPoints| >= 3 {
      var coordinates := p.FinishDrawing();
      if coordinates.Some? {
        var created := p.AddPolygonLocaly([coordinates.value], stamp);
        m.SetDrawingMode(DrawingMode.None);
      }
    }
  }

  method HandlePolygonClick(m: MapStore, polygonId: string)
    modifies m
    ensures m.State() == WithSelectedPolygon(old(m.State()), Some(polygonId)) && m.Valid()
  {
    m.SetSelectedPolygon(Some(polygonId));
  }

  method HandleObjectClick(m: MapStore, objectId: string)
    modifies m
    ensures m.State() == WithSelectedObject(old(m.State()), Some(objectId)) && m.Valid()
  {
    m.SetSelectedObject(Some(objectId));
  }

  /** In polygon mode a click appends exactly the clicked point and changes nothing else. */
  lemma ClickInPolygonModeAddsVertex(w: World, point: GeoPoint, freshId: string)
    requires w.ui.drawingMode == DrawingMode.Polygon
    ensures var r := ClickStep(w, point, freshId);
      && r.polygons.currentDrawingPoints == w.polygons.currentDrawingPoints + [point]
      && r.polygons.polygons == w.polygons.polygons && r.polygons.newPolygons == w.polygons.newPolygons
      && r.objects == w.objects && r.ui == w.ui
  {
  }

  /** In object mode a click places exactly one object carrying the selected icon, and the
      mode returns to `None` with both selections cleared: the mode is one-shot. */
  lemma ClickInObjectModePlacesOneObject(w: World, point: GeoPoint, freshId: string)
    requires w.ui.drawingMode == DrawingMode.Object
    ensures var r := ClickStep(w, point, freshId);
      var placed := NewObject(w.objects, point, w.objects.selectedIcon, freshId);
      && r.objects.objects == w.objects.objects + [placed]
      && r.objects.newObjects == w.objects.newObjects + [placed]
      && placed.geometry == point && placed.properties.symbol == w.objects.selectedIcon
      && r.ui.drawingMode == DrawingMode.None
      && r.ui.selectedPolygonId == Null && r.ui.selectedObjectId == Null
      && r.ui.isLoading == w.ui.isLoading && r.ui.error == w.ui.error
      && r.polygons == w.polygons
      && ClickStep(r, point, freshId) == r
  {
  }

  lemma ClickInNoModeChangesNothing(w: World, point: GeoPoint, freshId: string)
    requires w.ui.drawingMode == DrawingMode.None
    ensures ClickStep(w, point, freshId) == w
  {
  }

  /** A double-click with three or more buffered points adds one polygon whose only ring is
      the buffer, empties the buffer and leaves polygon mode. */
  lemma DoubleClickFinishesPolygon(w: World, stamp: string)
    requires w.ui.drawingMode == DrawingMode.Polygon && |w.polygons.currentDrawingPoints| >= 3
    ensures var r := DoubleClickStep(w, stamp);
      var added := NewPolygon(w.polygons, [w.polygons.currentDrawingPoints], stamp);
      && added.coordinates == [w.polygons.currentDrawingPoints]
      && r.polygons.polygons == w.polygons.polygons + [added]
      && r.polygons.newPolygons == w.polygons.newPolygons + [added]
      && r.polygons.currentDrawingPoints == []
      && r.ui == UiState(DrawingMode.None, Null, Null, false, Null)
      && r.objects == w.objects
  {
  }

  /** With fewer than three points, or outside polygon mode, a double-click does nothing. */
  lemma DoubleClickOtherwiseChangesNothing(w: World, stamp: string)
    requires w.ui.drawingMode != DrawingMode.Polygon || |w.polygons.currentDrawingPoints| < 3
    ensures DoubleClickStep(w, stamp) == w
  {
  }

  /** No map event breaks "at most one selection". */
  lemma MapEventsKeepAtMostOneSelected(w: World, point: GeoPoint, freshId: string, stamp: string)
    requires AtMostOneSelected(w.ui)
    ensures AtMostOneSelected(ClickStep(w, point, freshId).ui)
    ensures AtMostOneSelected(DoubleClickStep(w, stamp).ui)
  {
  }
}
