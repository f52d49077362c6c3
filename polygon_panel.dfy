/** The polygon panel's buttons (src/components/Panels/PolygonPanel.tsx): toggling polygon
    drawing, and deleting either the selected polygon or, after confirmation, all of them. */
module PolygonPanel {
  import opened Types
  import opened Services
  import opened MapState
  import opened Polygons

  /** "Add"/"Cancel": leaving polygon mode also drops the unfinished outline; entering it
      keeps whatever is buffered. */
  function AddClickStep(ui: UiState, s: PolygonState): Effect<PolygonState>
  {
    if ui.drawingMode == DrawingMode.Polygon then
      Effect(s.(currentDrawingPoints := []), WithDrawingMode(ui, DrawingMode.None), [], Fulfilled)
    else
      Effect(s, WithDrawingMode(ui, DrawingMode.Polygon), [], Fulfilled)
  }

  /** "Delete": the selected polygon if the selection is truthy; otherwise all polygons,
      but only when the user confirms (`confirmed` is the answer to the dialog). */
  function DeleteClickStep(ui: UiState, s: PolygonState, confirmed: bool, reply: Reply<()>): Effect<PolygonState>
  {
    if IsTruthy(ui.selectedPolygonId) then DeletePolygonStep(s, ui, ui.selectedPolygonId.value, reply)
    else if confirmed then DeleteAllPolygonsStep(s, ui, reply)
    else Effect(s, ui, [], Fulfilled)
  }

  method HandleAddClick(m: MapStore, p: PolygonStore)
    requires p.mapStore == m
    modifies m, p
    ensures Effect(p.State(), m.State(), [], Fulfilled) == AddClickStep(old(m.State()), old(p.State()))
    ensures m.Valid()
  {
    if m.drawingMode == DrawingMode.Polygon {
      m.SetDrawingMode(DrawingMode.None);
      p.ClearDrawingPoints();
    } else {
      m.SetDrawingMode(DrawingMode.Polygon);
    }
  }

  method HandleDeleteClick(m: MapStore, p: PolygonStore, confirmed: bool, reply: Reply<()>) returns (calls: seq<Call>)
    requires p.mapStore == m
    modifies m, p
    ensures Effect(p.State(), m.State(), calls, Fulfilled) == DeleteClickStep(old(m.State()), old(p.State()), confirmed, reply)
    ensures old(m.Valid()) ==> m.Valid()
  {
    var selected := m.selectedPolygonId;
    if IsTruthy(selected) {
      calls := p.DeletePolygon(selected.value, reply);
    } else if confirmed {
      calls := p.DeleteAllPolygons(reply);
    } else {
      calls := [];
    }
  }

  /** The button toggles: in polygon mode it leaves the mode and empties the buffer,
      otherwise it enters polygon mode with the buffer kept; either way both selections
      are cleared and nothing is called. Pressing it twice from outside polygon mode
      returns to mode `None` with no outline. */
  lemma AddClickTogglesPolygonMode(ui: UiState, s: PolygonState)
    ensures var e := AddClickStep(ui, s);
      && e.calls == [] && e.store.polygons == s.polygons && e.store.newPolygons == s.newPolygons
      && e.ui.selectedPolygonId == Null && e.ui.selectedObjectId == Null
      && e.ui.isLoading == ui.isLoading && e.ui.error == ui.error
      && (ui.drawingMode == DrawingMode.Polygon ==>
            e.ui.drawingMode == DrawingMode.None && e.store.currentDrawingPoints == [])
      && (ui.drawingMode != DrawingMode.Polygon ==>
            && e.ui.drawingMode == DrawingMode.Polygon
            && e.store.currentDrawingPoints == s.currentDrawingPoints
            && var twice := AddClickStep(e.ui, e.store);
               twice.ui.drawingMode == DrawingMode.None && twice.store.currentDrawingPoints == [])
  {
  }

  /** With a selection, "Delete" never deletes everything: it makes at most the one call
      for the selected id (none when that polygon is still unsaved). */
  lemma DeleteWithSelectionTargetsIt(ui: UiState, s: PolygonState, confirmed: bool, reply: Reply<()>)
    requires IsTruthy(ui.selectedPolygonId)
    ensures var e := DeleteClickStep(ui, s, confirmed, reply);
      && PolygonsDeleteAll !in e.calls
      && e.calls == (if HasId(s.newPolygons, ui.selectedPolygonId.value) then []
                     else [PolygonsDelete(ui.selectedPolygonId.value)])
  {
    if HasId(s.newPolygons, ui.selectedPolygonId.value) {
      DeleteUnsavedPolygonIsLocal(s, ui, ui.selectedPolygonId.value, reply);
    } else {
      DeletePersistedPolygonCallsService(s, ui, ui.selectedPolygonId.value, reply);
    }
  }

  /** Without a selection, all polygons are deleted exactly when the user confirms, and
      declining changes nothing. */
  lemma DeleteWithoutSelectionNeedsConfirmation(ui: UiState, s: PolygonState, confirmed: bool, reply: Reply<()>)
    requires !IsTruthy(ui.selectedPolygonId)
    ensures var e := DeleteClickStep(ui, s, confirmed, reply);
      && (PolygonsDeleteAll in e.calls <==> confirmed)
      && (forall id :: PolygonsDelete(id) !in e.calls)
      && (!confirmed ==> e == Effect(s, ui, [], Fulfilled))
  {
  }

  /** Neither button breaks "at most one selection". */
  lemma PanelKeepsAtMostOneSelected(ui: UiState, s: PolygonState, confirmed: bool, reply: Reply<()>)
    requires AtMostOneSelected(ui)
    ensures AtMostOneSelected(AddClickStep(ui, s).ui)
    ensures AtMostOneSelected(DeleteClickStep(ui, s, confirmed, reply).ui)
  {
  }
}
