# MapTask annotation state layer in Dafny

MapTask is a browser map editor. A user draws polygons and places point objects (markers
with an emoji icon), selects and deletes them, and saves them in bulk to a REST back end.
This project models the layer that keeps the editor's state, and proves what each
operation does to it:

- the wire encoder (`toGeoJsonObjects`, `toGeoJsonPolygons`): points go out longitude
  first, following section 3.1.1 of RFC 7946, and each polygon ring is closed by repeating
  its first position when it is not closed already, following section 3.1.6 of RFC 7946;
- `MapStore`: the drawing mode, the two selection ids, the loading flag and the error slot,
  with the invariant that at most one selection id is set;
- `PolygonStore` and `ObjectStore`: a main list and its unsaved subset each, the polygon
  drawing buffer, the icon bank, local creation, delete that short-circuits for unsaved
  ids, load that replaces the list with decoded server data, and bulk save;
- the event handlers that drive the stores: map click and double-click, the polygon and
  object panels' buttons, the save-then-reload of "Save", the icon picker, and the
  custom-icon form's validation.

Layout, one module per source file:

| file | module | source |
|---|---|---|
| `types.dfy` | `Types` | `src/services/types.ts` |
| `services.dfy` | `Services` | service outcomes and the call trace (`src/services/*Service.ts`) |
| `js_text.dfy` | `JsText` | `String(n)` in template literals, `String.prototype.trim` |
| `js_arrays.dfy` | `JsArrays` | `Array.prototype.filter` / `find` keyed by id |
| `geojson.dfy` | `GeoJson` | `src/utils/ToGeoJSON.ts` |
| `map_store.dfy` | `MapState` | `src/stores/MapStore.tsx` |
| `polygon_store.dfy` | `Polygons` | `src/stores/PolygonStore.tsx` |
| `object_store.dfy` | `Objects` | `src/stores/ObjectStore.tsx` |
| `session.dfy` | `Session` | `src/contexts/StoreContext.tsx` |
| `map_container.dfy` | `MapView` | `src/components/Map/MapContainer.tsx` |
| `polygon_panel.dfy` | `PolygonPanel` | `src/components/Panels/PolygonPanel.tsx` |
| `objects_panel.dfy` | `ObjectsPanel` | `src/components/Panels/ObjectsPanel.tsx` |
| `add_custom_icon_form.dfy` | `IconForm` | `src/components/UI/AddCustomIconForm.tsx` |
| `scenarios.dfy` | `Scenarios` | end-to-end behaviours across the modules above |

How the model is built:

- The stores are classes with the source's fields. Each method is proved against a pure
  step function of the old state, for example
  `ensures Effect(State(), mapStore.State(), calls, Fulfilled) == DeletePolygonStep(old(State()), old(mapStore.State()), id, reply)`.
  The lemmas beside each step function state what the source promises.
- Each store holds the shared `MapStore` in a `const` field. `Session.Wired` states that
  both stores hold the same one.
- A network call is not performed. Its outcome is a parameter: `Resolved(value)`, or
  `Rejected(reason)`, where the reason is an `Error` with a message or any other value.
  The calls an operation makes are returned as a trace of `Call` values, each carrying
  what it sends.
- An async operation of the core settles as `Fulfilled` or `Threw(reason)`.
- Fresh ids are parameters, in place of `Date.now()` and `Math.random()`: a polygon's id
  is `"poly-" + stamp`, and an object's id is `freshId`.

## Model

| member | source | states |
|---|---|---|
| GeoJson.ToGeoJsonObjects | src/utils/ToGeoJSON.ts:3-14 | one request per object, in order; its coordinates are exactly `[lng, lat]` of the object's point; name and symbol are copied |
| GeoJson.PointRoundTrip | src/utils/ToGeoJSON.ts:8 | a point encoded as `[lng, lat]` has two positions and decodes back to the same point |
| GeoJson.CloseRing | src/utils/ToGeoJSON.ts:23-28 | the reference closure: the result is closed and starts with the whole input ring |
| GeoJson.EncodePoints | src/utils/ToGeoJSON.ts:22 | same length as the ring; position `i` is `[lng, lat]` of point `i` |
| GeoJson.EncodeRing | src/utils/ToGeoJSON.ts:21-31 | the code's conditional push equals encoding the closed ring; a closed ring of n points gives n positions, an open one n+1; the ring's points come first in order; last position equals first |
| GeoJson.EncodeRingIdempotent | src/utils/ToGeoJSON.ts:23-28 | encoding an already encoded ring again (after reading its points back) changes nothing: a ring is never closed twice |
| GeoJson.ToGeoJsonPolygons | src/utils/ToGeoJSON.ts:16-36 | one request per polygon, in order, with its name; each polygon keeps its number and order of rings, and ring `j` is the encoded ring `j` |
| GeoJson.EncodedRingsClosed | src/utils/ToGeoJSON.ts:21-31 | every encoded ring of every polygon is non-empty and closed |
| JsArrays.Without | src/stores/PolygonStore.tsx:114 | `filter(p => p.id !== id)`: exactly the elements with another id are kept; the list shrinks iff some element has the id, and is unchanged otherwise |
| JsArrays.WithoutAppend | src/stores/PolygonStore.tsx:114 | the filter keeps the order: filtering a list with one more element at the end gives the old result, followed by that element when its id differs |
| JsArrays.Find | src/stores/PolygonStore.tsx:172-177 | `find` by id, or null: null iff the selection is null or no element has that id; otherwise the element at the first index with that id |
| JsArrays.FindIndex | src/stores/ObjectStore.tsx:104 | the first index whose id matches, or the length when none does |
| JsText.NatToString | src/stores/PolygonStore.tsx:88 | the decimal text of a number: non-empty, all digits, a leading `0` only for zero |
| JsText.DecimalRoundTrip | src/stores/PolygonStore.tsx:88 | reading the decimal text back gives the number |
| JsText.NatToStringInjective | src/stores/ObjectStore.tsx:63 | different numbers give different digit strings |
| JsText.Trim | src/components/UI/AddCustomIconForm.tsx:16 | the result is the slice `s[a..a + |r|]` of the input, and everything before and after that slice is white space; the result has no white space at either end; it is empty iff the input is all white space |
| JsText.TrimIgnoresSurroundingWhiteSpace | src/components/UI/AddCustomIconForm.tsx:16 | white space added around a string does not change its trimmed value |
| JsText.TrimIdempotent | src/components/UI/AddCustomIconForm.tsx:21 | trimming twice is trimming once |
| Services.PromiseAll | src/components/Panels/ObjectsPanel.tsx:29 | fulfilled iff every promise fulfilled; otherwise the rejection of the first rejected promise in the list |
| MapState.DrawingModeClearsSelections | src/stores/MapStore.tsx:15-18 | setting any mode, `None` included, sets that mode and nulls both ids, keeping loading and error |
| MapState.SelectionSettersAreExclusive | src/stores/MapStore.tsx:20-33 | selecting a polygon nulls the object id and vice versa; selection setters and clearing keep mode, loading and error |
| MapState.SettersKeepAtMostOneSelected | src/stores/MapStore.tsx:15-45 | every setter preserves "at most one selection id is set" |
| MapState.MapStore.constructor | src/stores/MapStore.tsx:5-9 | mode `None`, both ids null, not loading, no error |
| MapState.MapStore.SetDrawingMode | src/stores/MapStore.tsx:15-18 | the new state is the old one with the mode set and both selections cleared; the invariant holds |
| MapState.MapStore.SetSelectedPolygon | src/stores/MapStore.tsx:20-23 | sets the polygon id and nulls the object id; the invariant holds |
| MapState.MapStore.SetSelectedObject | src/stores/MapStore.tsx:25-28 | sets the object id and nulls the polygon id; the invariant holds |
| MapState.MapStore.ClearSelections | src/stores/MapStore.tsx:30-33 | nulls both ids and nothing else |
| MapState.MapStore.SetLoading | src/stores/MapStore.tsx:35-37 | changes only the loading flag |
| MapState.MapStore.SetError | src/stores/MapStore.tsx:39-41 | changes only the error slot |
| MapState.MapStore.ClearError | src/stores/MapStore.tsx:43-45 | nulls only the error slot |
| Polygons.DecodeRing | src/stores/PolygonStore.tsx:24-29 | one point per server position, in order, with `lng = values[0]` and `lat = values[1]` |
| Polygons.DecodePolygon | src/stores/PolygonStore.tsx:23-45 | id and name kept; rings are `[exterior, ...holes]` in server order |
| Polygons.DecodePolygons | src/stores/PolygonStore.tsx:23-46 | one polygon per server record, in order |
| Polygons.ReloadOfSavedPolygon | src/stores/PolygonStore.tsx:20-46 | a polygon saved and read back from a server that stores it faithfully has the server's id, the same name and ring count, and each ring closed |
| Polygons.ReloadOfClosedPolygon | src/stores/PolygonStore.tsx:20-46 | a polygon whose rings are already closed comes back unchanged except for its id |
| Polygons.LoadPolygonsReplacesList | src/stores/PolygonStore.tsx:15-58 | one `getAll` call; on success the list is replaced by the decoded data and the error is null; on failure the list is kept and the error is the message or `"Failed to load polygons"`; loading ends off; the unsaved list and the buffer are kept |
| Polygons.AddPolygonLocalyAppendsToBoth | src/stores/PolygonStore.tsx:76-110 | the same new polygon, with the given rings and name `"Polygon " + (old length + 1)`, is appended to both lists; the buffer is emptied; no call; loading off, no error |
| Polygons.DeleteUnsavedPolygonIsLocal | src/stores/PolygonStore.tsx:112-120 | an id in the unsaved list is removed from both lists with no call and no change to the UI state |
| Polygons.DeletePersistedPolygonCallsService | src/stores/PolygonStore.tsx:121-143 | any other id makes exactly one delete call with that id; on success the polygons with that id are gone and a selection of it is cleared; on failure the list is kept and the error is the message or `"Failed to delete polygon"`; loading ends off |
| Polygons.DeleteAllPolygonsKeepsUnsaved | src/stores/PolygonStore.tsx:146-170 | one delete-all call; on success the list is empty and both selections cleared while the unsaved list is kept; on failure only loading and the error change |
| Polygons.SavePolygonsClearsUnsavedOnSuccess | src/stores/PolygonStore.tsx:180-186 | sends the encoded unsaved list; empties it only after success; a rejection propagates and keeps it; the main list and the UI state are never touched |
| Polygons.PolygonStepsKeepAtMostOneSelected | src/stores/PolygonStore.tsx:15-186 | load, local add, delete, delete-all and save each preserve "at most one selection" |
| Polygons.PolygonStore.constructor | src/stores/PolygonStore.tsx:7-13 | three empty lists, and the given shared `MapStore` |
| Polygons.PolygonStore.LoadPolygons | src/stores/PolygonStore.tsx:15-58 | the new store and UI state are those of `LoadPolygonsStep`; a valid `MapStore` stays valid |
| Polygons.PolygonStore.AddDrawingPoint | src/stores/PolygonStore.tsx:61-63 | appends exactly the point to the buffer |
| Polygons.PolygonStore.FinishDrawing | src/stores/PolygonStore.tsx:65-70 | returns the buffer iff it has at least 3 points, otherwise null; reads only |
| Polygons.PolygonStore.ClearDrawingPoints | src/stores/PolygonStore.tsx:72-74 | empties the buffer only |
| Polygons.PolygonStore.AddPolygonLocaly | src/stores/PolygonStore.tsx:76-110 | returns the new polygon; the new state is that of `AddPolygonLocalyStep`; a valid `MapStore` stays valid |
| Polygons.PolygonStore.DeletePolygon | src/stores/PolygonStore.tsx:112-144 | the new state and the calls are those of `DeletePolygonStep`; a valid `MapStore` stays valid |
| Polygons.PolygonStore.DeleteAllPolygons | src/stores/PolygonStore.tsx:146-170 | the new state and the calls are those of `DeleteAllPolygonsStep`; a valid `MapStore` stays valid |
| Polygons.PolygonStore.SelectedPolygon | src/stores/PolygonStore.tsx:172-177 | null iff nothing has the selected id; otherwise the first polygon with that id |
| Polygons.PolygonStore.SavePolygonsToServer | src/stores/PolygonStore.tsx:180-186 | the new unsaved list, the calls and the outcome are those of `SavePolygonsStep` |
| Objects.DecodeObject | src/stores/ObjectStore.tsx:37-43 | id and properties kept; `lng = coordinates[0]`, `lat = coordinates[1]` |
| Objects.DecodeObjects | src/stores/ObjectStore.tsx:37-43 | one object per server record, in order |
| Objects.ReloadOfSavedObject | src/stores/ObjectStore.tsx:40-41 | an object saved and read back is the same object under the server's id: encoder and decoder agree on longitude first |
| Objects.InitialObjectsUseMarker | src/stores/ObjectStore.tsx:11-19 | the type starts as `marker` and the icon as the bank's marker icon |
| Objects.AddIconToBankSetsOneKey | src/stores/ObjectStore.tsx:22-24 | the type maps to the icon; every other entry is kept; the keys gain at most that type |
| Objects.LoadObjectsReplacesList | src/stores/ObjectStore.tsx:30-54 | one `getAll` call; on success the list is replaced by the decoded data; on failure the store is kept and the error is the message or `"Failed to load objects"`; loading ends off; the unsaved list is kept |
| Objects.AddObjectLocalAppendsToBoth | src/stores/ObjectStore.tsx:56-69 | the same new object, with the point, the symbol and name `type + " " + (old length + 1)`, is appended to both lists, and nothing else changes |
| Objects.DeleteUnsavedObjectIsLocal | src/stores/ObjectStore.tsx:71-78 | an id in the unsaved list is removed from both lists with no call and no change to the UI state |
| Objects.DeletePersistedObjectCallsService | src/stores/ObjectStore.tsx:79-100 | any other id makes exactly one delete call with that id; on success the objects with that id are gone and a selection of it is cleared; on failure the store is kept and the error is the message or `"Failed to delete object"` |
| Objects.SaveObjectsKeepsUnsaved | src/stores/ObjectStore.tsx:108-111 | sends the encoded unsaved list and changes no state, so the next save sends the same objects |
| Objects.ObjectStepsKeepAtMostOneSelected | src/stores/ObjectStore.tsx:30-111 | load, delete and save each preserve "at most one selection" |
| Objects.ObjectStore.constructor | src/stores/ObjectStore.tsx:9-28 | empty lists, the default bank, type `marker` and its icon, and the given shared `MapStore` |
| Objects.ObjectStore.AddIconToBank | src/stores/ObjectStore.tsx:22-24 | the bank gains or overwrites exactly that entry |
| Objects.ObjectStore.LoadObjects | src/stores/ObjectStore.tsx:30-54 | the new state is that of `LoadObjectsStep`; a valid `MapStore` stays valid |
| Objects.ObjectStore.AddObjectLocal | src/stores/ObjectStore.tsx:56-69 | returns the new object; the new state is that of `AddObjectLocalStep` |
| Objects.ObjectStore.DeleteObject | src/stores/ObjectStore.tsx:71-100 | the new state and the calls are those of `DeleteObjectStep`; a valid `MapStore` stays valid |
| Objects.ObjectStore.SelectedObject | src/stores/ObjectStore.tsx:103-105 | null iff nothing has the selected id; otherwise the first object with that id |
| Objects.ObjectStore.SaveObjectsToServer | src/stores/ObjectStore.tsx:108-111 | one bulk-save call with the encoded unsaved list; fulfilled iff the call resolved; no state changes |
| Session.NewRootStore | src/contexts/StoreContext.tsx:12-14 | three fresh stores in their initial states, both entity stores sharing the one `MapStore` |
| MapView.MapClick | src/components/Map/MapContainer.tsx:17-29 | the new state of all three stores is that of `ClickStep`; a valid `MapStore` stays valid |
| MapView.MapDoubleClick | src/components/Map/MapContainer.tsx:30-38 | the new state is that of `DoubleClickStep`; a valid `MapStore` stays valid |
| MapView.HandlePolygonClick | src/components/Map/MapContainer.tsx:50-52 | selects the polygon, clearing the object selection |
| MapView.HandleObjectClick | src/components/Map/MapContainer.tsx:54-56 | selects the object, clearing the polygon selection |
| MapView.ClickInPolygonModeAddsVertex | src/components/Map/MapContainer.tsx:20-21 | in polygon mode a click appends exactly that point to the buffer and changes nothing else |
| MapView.ClickInObjectModePlacesOneObject | src/components/Map/MapContainer.tsx:22-27 | in object mode a click adds one object carrying the selected icon to both lists; the mode becomes `None` with selections cleared, so a further click adds nothing |
| MapView.ClickInNoModeChangesNothing | src/components/Map/MapContainer.tsx:17-28 | in mode `None` a click changes nothing |
| MapView.DoubleClickFinishesPolygon | src/components/Map/MapContainer.tsx:31-35 | in polygon mode with at least 3 points, one polygon whose only ring is the buffer is added to both lists, the buffer is emptied, the mode is `None`, no selection, not loading, no error |
| MapView.DoubleClickOtherwiseChangesNothing | src/components/Map/MapContainer.tsx:31 | with fewer than 3 points, or in another mode, a double-click changes nothing |
| MapView.MapEventsKeepAtMostOneSelected | src/components/Map/MapContainer.tsx:17-38 | click and double-click preserve "at most one selection" |
| PolygonPanel.HandleAddClick | src/components/Panels/PolygonPanel.tsx:12-19 | the new state is that of `PolygonPanel.AddClickStep`; the `MapStore` ends valid |
| PolygonPanel.HandleDeleteClick | src/components/Panels/PolygonPanel.tsx:21-30 | the new state and the calls are those of `PolygonPanel.DeleteClickStep`; a valid `MapStore` stays valid |
| PolygonPanel.AddClickTogglesPolygonMode | src/components/Panels/PolygonPanel.tsx:12-19 | in polygon mode "Add" goes to `None` and empties the buffer; otherwise it goes to polygon mode and keeps the buffer; selections are cleared and nothing is called |
| PolygonPanel.DeleteWithSelectionTargetsIt | src/components/Panels/PolygonPanel.tsx:22-23 | with a selection, delete-all is never called; the only call is the delete of the selected id, and none is made when that polygon is unsaved |
| PolygonPanel.DeleteWithoutSelectionNeedsConfirmation | src/components/Panels/PolygonPanel.tsx:24-28 | without a selection, delete-all is called iff the user confirms; declining changes nothing |
| PolygonPanel.PanelKeepsAtMostOneSelected | src/components/Panels/PolygonPanel.tsx:12-30 | both buttons preserve "at most one selection" |
| ObjectsPanel.PanelState.constructor | src/components/Panels/ObjectsPanel.tsx:14-15 | not saving and the picker closed |
| ObjectsPanel.HandleSave | src/components/Panels/ObjectsPanel.tsx:17-36 | the new state of all stores, the calls and the outcome are those of `SaveStep`; `isSaving` is true while the saves are awaited and false at the end; a valid `MapStore` stays valid |
| ObjectsPanel.SaveCallsAndOutcome | src/components/Panels/ObjectsPanel.tsx:19-35 | the saves started are those of non-empty lists; it settles fulfilled iff every started save did; then it reloads objects and then polygons; otherwise it makes no reload, keeps the UI state, and rethrows the first rejection |
| ObjectsPanel.SaveWithNothingUnsavedOnlyReloads | src/components/Panels/ObjectsPanel.tsx:29-32 | with nothing unsaved, no save is made and both reloads still run |
| ObjectsPanel.SaveSuccessReloadsBoth | src/components/Panels/ObjectsPanel.tsx:29-32 | after a successful save and reload, both lists are the server's data; no unsaved polygon is left, but the unsaved objects remain and would be sent again |
| ObjectsPanel.HandleAddClick | src/components/Panels/ObjectsPanel.tsx:39-45 | the new UI state is that of `ObjectsPanel.AddClickStep` |
| ObjectsPanel.AddClickTogglesObjectMode | src/components/Panels/ObjectsPanel.tsx:39-45 | object mode becomes `None`, any other mode becomes object mode, and selections are cleared |
| ObjectsPanel.HandleDeleteClick | src/components/Panels/ObjectsPanel.tsx:47-51 | the new state and the calls are those of `ObjectsPanel.DeleteClickStep`; a valid `MapStore` stays valid |
| ObjectsPanel.DeleteClickNeedsSelection | src/components/Panels/ObjectsPanel.tsx:47-51 | without a selected object nothing happens; with one, that object is deleted |
| ObjectsPanel.StartSavesKeepsUi | src/components/Panels/ObjectsPanel.tsx:20-27 | starting the saves changes no UI state |
| ObjectsPanel.ReloadKeepsAtMostOneSelected | src/components/Panels/ObjectsPanel.tsx:31-32 | reloading objects and then polygons preserves "at most one selection" |
| ObjectsPanel.ObjectsPanelKeepsAtMostOneSelected | src/components/Panels/ObjectsPanel.tsx:17-51 | "Save", "Add" and "Delete" each preserve "at most one selection" |
| ObjectsPanel.SetIconPopup | src/components/Panels/ObjectsPanel.tsx:66 | opens or closes the picker and nothing else |
| ObjectsPanel.HandlePickIcon | src/components/Panels/ObjectsPanel.tsx:85-89 | sets the type and the bank's icon for it together, and closes the picker |
| ObjectsPanel.PickIconKeepsIconOfType | src/components/Panels/ObjectsPanel.tsx:85-88 | after a pick, the selected icon is the bank's entry for the selected type; lists and bank untouched |
| ObjectsPanel.HandleAddCustomIcon | src/components/Panels/ObjectsPanel.tsx:97-99 | the form's submit; the bank gains the submitted pair iff the form accepted it |
| IconForm.AddCustomIconForm.constructor | src/components/UI/AddCustomIconForm.tsx:10-12 | empty type, icon and error |
| IconForm.AddCustomIconForm.SetType | src/components/UI/AddCustomIconForm.tsx:32 | sets the type text only |
| IconForm.AddCustomIconForm.SetIcon | src/components/UI/AddCustomIconForm.tsx:39 | sets the icon text only |
| IconForm.AddCustomIconForm.HandleSubmit | src/components/UI/AddCustomIconForm.tsx:14-24 | the new form state and what `onAdd` receives are those of `SubmitStep` |
| IconForm.SubmitRejectsBlankFields | src/components/UI/AddCustomIconForm.tsx:16-19 | `onAdd` is skipped iff a field is blank after trimming; then only the error becomes `"Type and icon are required"` |
| IconForm.SubmitPassesTrimmedValues | src/components/UI/AddCustomIconForm.tsx:20-23 | otherwise `onAdd` receives the trimmed type and icon, both non-empty, and the form is reset with no error |
| IconForm.SubmitIgnoresSurroundingWhiteSpace | src/components/UI/AddCustomIconForm.tsx:16-21 | inputs that differ only in surrounding white space lead to the same `onAdd` call or the same refusal |
| IconForm.SubmitOfTrimmedValuesIsStable | src/components/UI/AddCustomIconForm.tsx:21 | submitting the values `onAdd` received passes them unchanged |
| Scenarios.FourClicksThenDoubleClick | src/components/Map/MapContainer.tsx:20-35 | four clicks in polygon mode buffer the four points in order; the double-click turns them into one polygon held in both lists and empties the buffer |
| Scenarios.CreateSaveReload | src/components/Map/MapContainer.tsx:20-35 | four clicks on an open outline and a double-click make one polygon in both lists; the save sends one five-position ring that repeats the first point; then the unsaved list is empty and a reload shows only server data |
| Scenarios.DeleteUnsavedThenPersisted | src/stores/ObjectStore.tsx:71-90 | deleting a locally placed object makes no call; deleting the persisted one then makes exactly one call with its id |
| Scenarios.FailedLoadKeepsCollections | src/stores/PolygonStore.tsx:48-58 | a failed load of either list keeps it, ends loading and reports a non-empty error |

## Left out

- Rendering: the JSX and Leaflet layers, button styling, the preview polygon and the
  string tables are not modelled. Only the handlers are.
- `MapDataPanel.tsx` is table rendering and float formatting. It is not part of this model.
- HTTP transport: `api.ts`, `BaseService.ts`, `PolygonService.ts` and `ObjectService.ts`
  are not part of this model. Each call is a `Call` in the trace, with an outcome supplied
  as a parameter. A bulk save's payload is the encoder applied to the unsaved list. The
  response body of a save is ignored, as the stores ignore it.
- Reactivity: MobX observation and `runInAction` are left out. The stores are plain
  objects that share one `MapStore` reference.
- Async interleaving is not modelled. Each awaited call is one atomic step, and a
  handler's steps run in program order. So the race between a load and a local create
  cannot appear, and neither can two handlers running at once.
- Services.PromiseAll: it picks the first rejection in list order, while `Promise.all`
  rejects with whichever rejection happens first in time.
- ObjectsPanel.HandleSave: the intermediate value `isSaving = true` is stated only at the
  moment the saves are awaited (the ghost result `savingWhileAwaiting`), not as something
  a re-render could observe.
- Ids and time: `Date.now()` and `Math.random()` are not modelled. A polygon's stamp and
  an object's id are parameters.
- Coordinates are `real` numbers that are only copied and compared. JavaScript number
  semantics and NaN are not modelled.
- `window.confirm` is a boolean parameter of `PolygonPanel.HandleDeleteClick`.
- `App.tsx` is not part of this model: the initial parallel load, `console.error`, and
  Escape, which is just `MapStore.SetDrawingMode(None)`.
- Fields whose type is a single string literal (`type: "Feature"`, `"Point"`,
  `"Polygon"`) have one possible value and are not represented. So the `"Feature"`
  argument the map passes to `addObjectLocal` is not represented either.
- `name || ""` in the encoder is the identity on strings, so names are copied as they are.
- Strings are sequences of Unicode scalar values, not UTF-16 code units. `trim` uses the
  white space and line terminator characters of ECMAScript.
- Object responses: `types.ts` declares the coordinates as a structured record, but
  `ObjectStore.tsx` indexes them as `[lng, lat]`. The model follows the store and gives a
  response the pair the store reads.
- A server polygon record with missing or short coordinate arrays cannot be represented.
  Decoding is total over well-formed records.
- Polygons.AddPolygonLocalyStep: the `catch` branch ("Failed to save polygon") is
  unreachable, since nothing in the `try` can throw, so it is not modelled.
- GeoJson.EncodeRing requires a non-empty ring. In JavaScript an empty ring throws
  `TypeError` at `first[0]`. Polygons.SavePolygonsStep models that throw: no call is sent
  and the save rejects with that error.
- The icon bank is a map, so neither its insertion order (the picker's order) nor keys
  such as `__proto__` are modelled.
- The four-position minimum and the winding rule of section 3.1.6 of RFC 7946 are not
  enforced by the code, and not by the model.
