/** The objects panel (src/components/Panels/ObjectsPanel.tsx): the icon picker, toggling
    object mode, deleting the selected object, and "Save", which flushes both unsaved lists
    and then reloads both collections. */
module ObjectsPanel {
  import opened Types
  import opened Services
  import opened GeoJson
  import opened MapState
  import opened Polygons
  import opened Objects
  import opened Session
  import opened IconForm

  /** The panel's own component state. */
  class PanelState {
    var isSaving: bool
    var showIconPopup: bool

    constructor ()
      ensures !isSaving && !showIconPopup
    {
      isSaving := false;
      showIconPopup := false;
    }
  }

  /** The bulk saves "Save" starts, in the order it starts them: objects only when some are
      unsaved, polygons only when some are unsaved (and then only if they encode). */
  function SaveRequests(w: World): seq<Call>
  {
    (if |w.objects.newObjects| > 0 then [ObjectsSaveBulk(ToGeoJsonObjects(w.objects.newObjects))] else [])
    + (if |w.polygons.newPolygons| > 0 && Encodable(w.polygons.newPolygons)
       then [PolygonsSaveBulk(ToGeoJsonPolygons(w.polygons.newPolygons))] else [])
  }

  /** The first half of "Save": the started saves, in start order, with their outcomes. */
  function StartSavesStep(w: World, objectsSave: Reply<()>, polygonsSave: Reply<()>): (World, seq<Settled>, seq<Call>)
  {
    var savesObjects := |w.objects.newObjects| > 0;
    var savesPolygons := |w.polygons.newPolygons| > 0;
    var eo := if savesObjects then SaveObjectsStep(w.objects, w.ui, objectsSave) else Effect(w.objects, w.ui, [], Fulfilled);
    var ep := if savesPolygons then SavePolygonsStep(w.polygons, eo.ui, polygonsSave) else Effect(w.polygons, eo.ui, [], Fulfilled);
    (World(ep.ui, ep.store, eo.store),
     (if savesObjects then [eo.outcome] else []) + (if savesPolygons then [ep.outcome] else []),
     eo.calls + ep.calls)
  }

  /** The second half of "Save": reload objects, then polygons. */
  function ReloadStep(w: World, objectsLoad: Reply<seq<MapObjectResponse>>, polygonsLoad: Reply<seq<MapPolygonResponse>>): Transition
  {
    var lo := LoadObjectsStep(w.objects, w.ui, objectsLoad);
    var lp := LoadPolygonsStep(w.polygons, lo.ui, polygonsLoad);
    Transition(World(lp.ui, lp.store, lo.store), lo.calls + lp.calls, Fulfilled)
  }

  /** "Save": start the non-empty saves, wait for all of them, and only when none rejected
      reload objects and then polygons. A rejection escapes the handler. */
  function SaveStep(w: World, objectsSave: Reply<()>, polygonsSave: Reply<()>,
                    objectsLoad: Reply<seq<MapObjectResponse>>, polygonsLoad: Reply<seq<MapPolygonResponse>>): Transition
  {
    var (saved, promises, calls) := StartSavesStep(w, objectsSave, polygonsSave);
    var all := PromiseAll(promises);
    if all.Threw? then Transition(saved, calls, all)
    else
      var reloaded := ReloadStep(saved, objectsLoad, polygonsLoad);
      Transition(reloaded.world, calls + reloaded.calls, Fulfilled)
  }

  /** "Add"/"Cancel" for objects. */
  function AddClickStep(ui: UiState): UiState
  {
    if ui.drawingMode == DrawingMode.Object then WithDrawingMode(ui, DrawingMode.None)
    else WithDrawingMode(ui, DrawingMode.Object)
  }

  /** "Delete": only a truthy selected object id does anything. */
  function DeleteClickStep(ui: UiState, s: ObjectState, reply: Reply<()>): Effect<ObjectState>
  {
    if IsTruthy(ui.selectedObjectId) then DeleteObjectStep(s, ui, ui.selectedObjectId.value, reply)
    else Effect(s, ui, [], Fulfilled)
  }

  /** Picking an entry of the icon bank selects its type and its icon together. */
  function PickIconStep(s: ObjectState, t: string): ObjectState
    requires t in s.iconBank
  {
    s.(selectedObjectType := t, selectedIcon := s.iconBank[t])
  }

  method StartSaves(m: MapStore, p: PolygonStore, o: ObjectStore, objectsSave: Reply<()>, polygonsSave: Reply<()>)
    returns (promises: seq<Settled>, calls: seq<Call>)
    requires Wired(m, p, o)
    modifies p`newPolygons
    ensures (WorldOf(m, p, o), promises, calls) == StartSavesStep(old(WorldOf(m, p, o)), objectsSave, polygonsSave)
  {
    ghost var w := WorldOf(m, p, o);
    ghost var eo := if |w.objects.newObjects| > 0 then SaveObjectsStep(w.objects, w.ui, objectsSave)
                    else Effect(w.objects, w.ui, [], Fulfilled);
    var objectPromises: seq<Settled> := [];
    calls := [];
    if |o.newObjects| > 0 {
      var r, c := o.SaveObjectsToServer(objectsSave);
      objectPromises := [r];
      calls := c;
    }
    assert o.State() == eo.store && m.State() == eo.ui && calls == eo.calls;
    ghost var ep := if |w.polygons.newPolygons| > 0 then SavePolygonsStep(w.polygons, eo.ui, polygonsSave)
                    else Effect(w.polygons, eo.ui, [], Fulfilled);
    var polygonPromises: seq<Settled> := [];
    if |p.newPolygons| > 0 {
      var r, c := p.SavePolygonsToServer(polygonsSave);
      polygonPromises := [r];
      calls := calls + c;
    }
    assert p.State() == ep.store && calls == eo.calls + ep.calls;
    promises := objectPromises + polygonPromises;
  }

  method Reload(m: MapStore, p: PolygonStore, o: ObjectStore,
                objectsLoad: Reply<seq<MapObjectResponse>>, polygonsLoad: Reply<seq<MapPolygonResponse>>)
    returns (calls: seq<Call>)
    requires Wired(m, p, o)
    modifies m, p, o
    ensures Transition(WorldOf(m, p, o), calls, Fulfilled) == ReloadStep(old(WorldOf(m, p, o)), objectsLoad, polygonsLoad)
    ensures old(m.Valid()) ==> m.Valid()
  {
    calls := o.LoadObjects(objectsLoad);
    var c := p.LoadPolygons(polygonsLoad);
    calls := calls + c;
  }

  /** `savingWhileAwaiting` is the value of `isSaving` at the moment the handler waits for
      the saves. */
  method HandleSave(m: MapStore, p: PolygonStore, o: ObjectStore, panel: PanelState,
                    objectsSave: Reply<()>, polygonsSave: Reply<()>,
                    objectsLoad: Reply<seq<MapObjectResponse>>, polygonsLoad: Reply<seq<MapPolygonResponse>>)
    returns (outcome: Settled, calls: seq<Call>, ghost savingWhileAwaiting: bool)
    requires Wired(m, p, o)
    modifies m, p, o, panel
    ensures Transition(WorldOf(m, p, o), calls, outcome)
         == SaveStep(old(WorldOf(m, p, o)), objectsSave, polygonsSave, objectsLoad, polygonsLoad)
    ensures savingWhileAwaiting && !panel.isSaving && panel.showIconPopup == old(panel.showIconPopup)
    ensures old(m.Valid()) ==> m.Valid()
  {
    panel.isSaving := true;
    var promises;
    promises, calls := StartSaves(m, p, o, objectsSave, polygonsSave);
    savingWhileAwaiting := panel.isSaving;
    outcome := PromiseAll(promises);
    if outcome == Fulfilled {
      var c := Reload(m, p, o, objectsLoad, polygonsLoad);
      calls := calls + c;
    }
    panel.isSaving := false;
  }

  method HandleAddClick(m: MapStore)
    modifies m
    ensures m.State() == AddClickStep(old(m.State())) && m.Valid()
  {
    if m.drawingMode == DrawingMode.Object {
      m.SetDrawingMode(DrawingMode.None);
    } else {
      m.SetDrawingMode(DrawingMode.Object);
    }
  }

  method HandleDeleteClick(m: MapStore, o: ObjectStore, reply: Reply<()>) returns (calls: seq<Call>)
    requires o.mapStore == m
    modifies m, o
    ensures Effect(o.State(), m.State(), calls, Fulfilled) == DeleteClickStep(old(m.State()), old(o.State()), reply)
    ensures old(m.Valid()) ==> m.Valid()
  {
    var selected := m.selectedObjectId;
    if IsTruthy(selected) {
      calls := o.DeleteObject(selected.value, reply);
    } else {
      calls := [];
    }
  }

  /** The icon button opens the picker; "Cancel" closes it. */
  method SetIconPopup(panel: PanelState, show: bool)
    modifies panel
    ensures panel.showIconPopup == show && panel.isSaving == old(panel.isSaving)
  {
    panel.showIconPopup := show;
  }

  /** A click on the picker's entry for type `t`. */
  method HandlePickIcon(o: ObjectStore, panel: PanelState, t: string)
    requires t in o.iconBank
    modifies o, panel
    ensures o.State() == PickIconStep(old(o.State()), t)
    ensures !panel.showIconPopup && panel.isSaving == old(panel.isSaving)
  {
    o.selectedObjectType := t;
    o.selectedIcon := o.iconBank[t];
    panel.showIconPopup := false;
  }

  /** The custom-icon form submitted inside the picker: its `onAdd` adds the pair to the bank. */
  method HandleAddCustomIcon(o: ObjectStore, form: AddCustomIconForm) returns (added: Nullable<(string, string)>)
    modifies o, form
    ensures Submission(form.State(), added) == SubmitStep(old(form.State()))
    ensures o.State() == old(o.State()).(iconBank := if added.Some? then old(o.iconBank)[added.value.0 := added.value.1]
                                                     else old(o.iconBank))
  {
    added := form.HandleSubmit();
    if added.Some? {
      o.AddIconToBank(added.value.0, added.value.1);
    }
  }

  // ---------------------------------------------------------------------------------
  // What "Save" promises

  /** The saves started are exactly `SaveRequests`. The handler settles successfully
      exactly when every started save resolved; then it reloads objects and then polygons,
      otherwise it reloads nothing and rethrows the rejection of the first failed save in
      start order. */
  lemma SaveCallsAndOutcome(w: World, objectsSave: Reply<()>, polygonsSave: Reply<()>,
                            objectsLoad: Reply<seq<MapObjectResponse>>, polygonsLoad: Reply<seq<MapPolygonResponse>>)
    ensures var t := SaveStep(w, objectsSave, polygonsSave, objectsLoad, polygonsLoad);
      var objectsFail := |w.objects.newObjects| > 0 && objectsSave.Rejected?;
      var polygonsFail := |w.polygons.newPolygons| > 0 && (!Encodable(w.polygons.newPolygons) || polygonsSave.Rejected?);
      && (t.outcome == Fulfilled <==> !objectsFail && !polygonsFail)
      && (t.outcome == Fulfilled ==> t.calls == SaveRequests(w) + [ObjectsGetAll, PolygonsGetAll])
      && (t.outcome.Threw? ==> t.calls == SaveRequests(w) && t.world.ui == w.ui && t.world.objects == w.objects)
      && (objectsFail ==> t.outcome == Threw(objectsSave.reason))
      && (!objectsFail && polygonsFail && Encodable(w.polygons.newPolygons) ==> t.outcome == Threw(polygonsSave.reason))
  {
    var savesObjects := |w.objects.newObjects| > 0;
    var savesPolygons := |w.polygons.newPolygons| > 0;
    SavePolygonsClearsUnsavedOnSuccess(w.polygons, w.ui, polygonsSave);
    SaveObjectsKeepsUnsaved(w.objects, w.ui, objectsSave, objectsSave);
    var eo := if savesObjects then SaveObjectsStep(w.objects, w.ui, objectsSave) else Effect(w.objects, w.ui, [], Fulfilled);
    var ep := if savesPolygons then SavePolygonsStep(w.polygons, eo.ui, polygonsSave) else Effect(w.polygons, eo.ui, [], Fulfilled);
    var promises := (if savesObjects then [eo.outcome] else []) + (if savesPolygons then [ep.outcome] else []);
    assert savesObjects ==> promises[0] == eo.outcome;
    assert savesPolygons ==> promises[|promises| - 1] == ep.outcome;
    LoadObjectsReplacesList(eo.store, ep.ui, objectsLoad);
    LoadPolygonsReplacesList(ep.store, LoadObjectsStep(eo.store, ep.ui, objectsLoad).ui, polygonsLoad);
  }

  /** With nothing unsaved, "Save" saves nothing and still reloads both collections. */
  lemma SaveWithNothingUnsavedOnlyReloads(w: World, objectsSave: Reply<()>, polygonsSave: Reply<()>,
                                          objectsLoad: Reply<seq<MapObjectResponse>>, polygonsLoad: Reply<seq<MapPolygonResponse>>)
    requires w.objects.newObjects == [] && w.polygons.newPolygons == []
    ensures var t := SaveStep(w, objectsSave, polygonsSave, objectsLoad, polygonsLoad);
      t.outcome == Fulfilled && t.calls == [ObjectsGetAll, PolygonsGetAll]
  {
  }

  /** After a fully successful save and reload, both collections are the server's data, the
      unsaved polygons are gone, loading is off, and the unsaved objects are still there:
      the object save does not clear them, so the next "Save" sends them again. */
  lemma SaveSuccessReloadsBoth(w: World, objectsSave: Reply<()>, polygonsSave: Reply<()>,
                               objectsLoad: Reply<seq<MapObjectResponse>>, polygonsLoad: Reply<seq<MapPolygonResponse>>)
    requires objectsLoad.Resolved? && polygonsLoad.Resolved?
    requires SaveStep(w, objectsSave, polygonsSave, objectsLoad, polygonsLoad).outcome == Fulfilled
    ensures var t := SaveStep(w, objectsSave, polygonsSave, objectsLoad, polygonsLoad);
      && t.world.objects.objects == DecodeObjects(objectsLoad.value)
      && t.world.polygons.polygons == DecodePolygons(polygonsLoad.value)
      && t.world.polygons.newPolygons == []
      && t.world.objects.newObjects == w.objects.newObjects
      && t.world.ui == w.ui.(isLoading := false, error := Null)
      && (|w.objects.newObjects| > 0 ==>
            SaveRequests(t.world) == [ObjectsSaveBulk(ToGeoJsonObjects(w.objects.newObjects))])
  {
    SaveCallsAndOutcome(w, objectsSave, polygonsSave, objectsLoad, polygonsLoad);
    SavePolygonsClearsUnsavedOnSuccess(w.polygons, w.ui, polygonsSave);
  }

  // ---------------------------------------------------------------------------------
  // The other buttons

  /** "Add" toggles object mode and clears both selections. */
  lemma AddClickTogglesObjectMode(ui: UiState)
    ensures var r := AddClickStep(ui);
      && r.drawingMode == (if ui.drawingMode == DrawingMode.Object then DrawingMode.None else DrawingMode.Object)
      && r.selectedPolygonId == Null && r.selectedObjectId == Null
      && r.isLoading == ui.isLoading && r.error == ui.error
      && (ui.drawingMode == DrawingMode.Object ==> AddClickStep(r).drawingMode == DrawingMode.Object)
  {
  }

  /** "Delete" does nothing without a selected object, and otherwise deletes exactly that one. */
  lemma DeleteClickNeedsSelection(ui: UiState, s: ObjectState, reply: Reply<()>)
    ensures var e := DeleteClickStep(ui, s, reply);
      && (!IsTruthy(ui.selectedObjectId) ==> e == Effect(s, ui, [], Fulfilled))
      && (IsTruthy(ui.selectedObjectId) ==>
            e.calls == (if Objects.HasId(s.newObjects, ui.selectedObjectId.value) then []
                        else [ObjectsDelete(ui.selectedObjectId.value)]))
  {
    if IsTruthy(ui.selectedObjectId) {
      if Objects.HasId(s.newObjects, ui.selectedObjectId.value) {
        DeleteUnsavedObjectIsLocal(s, ui, ui.selectedObjectId.value, reply);
      } else {
        DeletePersistedObjectCallsService(s, ui, ui.selectedObjectId.value, reply);
      }
    }
  }

  /** Picking an icon sets type and icon together, so the selected icon stays the bank's
      entry for the selected type; the lists and the bank are untouched. */
  lemma PickIconKeepsIconOfType(s: ObjectState, t: string)
    requires t in s.iconBank
    ensures var r := PickIconStep(s, t);
      && r.selectedObjectType in r.iconBank && r.selectedIcon == r.iconBank[r.selectedObjectType]
      && r.objects == s.objects && r.newObjects == s.newObjects && r.iconBank == s.iconBank
  {
  }

  /** The saves change no UI state. */
  lemma StartSavesKeepsUi(w: World, objectsSave: Reply<()>, polygonsSave: Reply<()>)
    ensures StartSavesStep(w, objectsSave, polygonsSave).0.ui == w.ui
  {
  }

  lemma ReloadKeepsAtMostOneSelected(w: World, objectsLoad: Reply<seq<MapObjectResponse>>, polygonsLoad: Reply<seq<MapPolygonResponse>>)
    requires AtMostOneSelected(w.ui)
    ensures AtMostOneSelected(ReloadStep(w, objectsLoad, polygonsLoad).world.ui)
  {
    var lo := LoadObjectsStep(w.objects, w.ui, objectsLoad);
    ObjectStepsKeepAtMostOneSelected(w.objects, w.ui, objectsLoad, "", Resolved(()));
    PolygonStepsKeepAtMostOneSelected(w.polygons, lo.ui, polygonsLoad, [], "", "", Resolved(()));
  }

  /** Neither the panel's buttons nor "Save" can leave both a polygon and an object selected. */
  lemma ObjectsPanelKeepsAtMostOneSelected(w: World, objectsSave: Reply<()>, polygonsSave: Reply<()>,
                                           objectsLoad: Reply<seq<MapObjectResponse>>, polygonsLoad: Reply<seq<MapPolygonResponse>>,
                                           reply: Reply<()>)
    requires AtMostOneSelected(w.ui)
    ensures AtMostOneSelected(AddClickStep(w.ui))
    ensures AtMostOneSelected(DeleteClickStep(w.ui, w.objects, reply).ui)
    ensures AtMostOneSelected(SaveStep(w, objectsSave, polygonsSave, objectsLoad, polygonsLoad).world.ui)
  {
    if IsTruthy(w.ui.selectedObjectId) {
      ObjectStepsKeepAtMostOneSelected(w.objects, w.ui, objectsLoad, w.ui.selectedObjectId.value, reply);
    }
    var saved := StartSavesStep(w, objectsSave, polygonsSave).0;
    StartSavesKeepsUi(w, objectsSave, polygonsSave);
    ReloadKeepsAtMostOneSelected(saved, objectsLoad, polygonsLoad);
  }
}
