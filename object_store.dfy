/** The object store (src/stores/ObjectStore.tsx): the object list, its unsaved subset,
    the icon bank with the current icon choice, and their reconciliation with the
    `objects` service. */
module Objects {
  import opened Types
  import opened Services
  import opened JsText
  import opened JsArrays
  import opened GeoJson
  import opened MapState

  const LOAD_OBJECTS_FAILED := "Failed to load objects"
  const DELETE_OBJECT_FAILED := "Failed to delete object"

  /** The icons the bank starts with: marker, jeep, house, flag and tree. */
  const DEFAULT_ICON_BANK: map<string, string> := map[
    "marker" := "\U{1F4CD}",
    "jeep" := "\U{1F699}",
    "house" := "\U{1F3E0}",
    "flag" := "\U{1F6A9}",
    "tree" := "\U{1F333}"]

  const DEFAULT_OBJECT_TYPE := "marker"

  // ---------------------------------------------------------------------------------
  // Decoding the server's objects

  /** `{ ...obj, geometry: { lng: coordinates[0], lat: coordinates[1] } }` */
  function DecodeObject(response: MapObjectResponse): (o: MapObject)
    ensures o.id == response.id && o.properties == response.properties
    ensures o.geometry.lng == response.coordinates.0 && o.geometry.lat == response.coordinates.1
  {
    MapObject(response.id, GeoPoint(lat := response.coordinates.1, lng := response.coordinates.0), response.properties)
  }

  function DecodeObjects(responses: seq<MapObjectResponse>): (r: seq<MapObject>)
    ensures |r| == |responses|
    ensures forall i :: 0 <= i < |responses| ==> r[i] == DecodeObject(responses[i])
  {
    seq(|responses|, i requires 0 <= i < |responses| => DecodeObject(responses[i]))
  }

  /** The form in which a server that stores a request faithfully returns it. */
  function StoredObject(id: string, request: MapObjectRequest): MapObjectResponse
    requires |request.coordinates| == 2
  {
    MapObjectResponse(id, (request.coordinates[0], request.coordinates[1]), request.properties)
  }

  /** Saving an object and loading it back yields the same object under the server's id:
      encoder and decoder agree on longitude first. */
  lemma ReloadOfSavedObject(o: MapObject, serverId: string)
    ensures |ToGeoJsonObjects([o])[0].coordinates| == 2
    ensures DecodeObject(StoredObject(serverId, ToGeoJsonObjects([o])[0])) == o.(id := serverId)
  {
  }

  // ---------------------------------------------------------------------------------
  // The store's state and the effect of each operation

  datatype ObjectState = ObjectState(
    objects: seq<MapObject>,
    newObjects: seq<MapObject>,
    selectedObjectType: string,
    iconBank: map<string, string>,
    selectedIcon: string)

  const InitialObjects := ObjectState([], [], DEFAULT_OBJECT_TYPE, DEFAULT_ICON_BANK, DEFAULT_ICON_BANK[DEFAULT_OBJECT_TYPE])

  function ObjectId(o: MapObject): string
  {
    o.id
  }

  function HasId(os: seq<MapObject>, id: string): bool
  {
    exists o :: o in os && o.id == id
  }

  /** The object `addObjectLocal` creates: named after the current type and the list's new length. */
  function NewObject(s: ObjectState, geometry: GeoPoint, symbol: string, freshId: string): MapObject
  {
    MapObject(freshId, geometry, ObjectProperties(symbol, s.selectedObjectType + " " + NatToString(|s.objects| + 1)))
  }

  function AddObjectLocalStep(s: ObjectState, geometry: GeoPoint, symbol: string, freshId: string): ObjectState
  {
    var o := NewObject(s, geometry, symbol, freshId);
    s.(objects := s.objects + [o], newObjects := s.newObjects + [o])
  }

  function LoadObjectsStep(s: ObjectState, ui: UiState, reply: Reply<seq<MapObjectResponse>>): Effect<ObjectState>
  {
    var started := WithoutError(WithLoading(ui, true));
    match reply
    case Resolved(data) =>
      Effect(s.(objects := DecodeObjects(data)), WithLoading(started, false), [ObjectsGetAll], Fulfilled)
    case Rejected(reason) =>
      var failed := WithError(started, Some(MessageOr(reason, LOAD_OBJECTS_FAILED)));
      Effect(s, WithLoading(failed, false), [ObjectsGetAll], Fulfilled)
  }

  function DeleteObjectStep(s: ObjectState, ui: UiState, id: string, reply: Reply<()>): Effect<ObjectState>
  {
    var remaining := Without(s.newObjects, ObjectId, id);
    if |remaining| < |s.newObjects| then
      Effect(s.(newObjects := remaining, objects := Without(s.objects, ObjectId, id)), ui, [], Fulfilled)
    else
      var started := WithoutError(WithLoading(ui, true));
      var kept := s.(newObjects := remaining);
      match reply
      case Resolved(_) =>
        var deselected := if started.selectedObjectId == Some(id) then WithSelectedObject(started, Null) else started;
        Effect(kept.(objects := Without(s.objects, ObjectId, id)), WithLoading(deselected, false), [ObjectsDelete(id)], Fulfilled)
      case Rejected(reason) =>
        var failed := WithError(started, Some(MessageOr(reason, DELETE_OBJECT_FAILED)));
        Effect(kept, WithLoading(failed, false), [ObjectsDelete(id)], Fulfilled)
  }

  function SaveObjectsStep(s: ObjectState, ui: UiState, reply: Reply<()>): Effect<ObjectState>
  {
    var sent := [ObjectsSaveBulk(ToGeoJsonObjects(s.newObjects))];
    match reply
    case Resolved(_) => Effect(s, ui, sent, Fulfilled)
    case Rejected(reason) => Effect(s, ui, sent, Threw(reason))
  }

  // ---------------------------------------------------------------------------------
  // What the operations promise

  /** The store starts with the default icon bank, type `marker` and the marker's icon. */
  lemma InitialObjectsUseMarker()
    ensures DEFAULT_OBJECT_TYPE in InitialObjects.iconBank
    ensures InitialObjects.selectedIcon == InitialObjects.iconBank[InitialObjects.selectedObjectType]
    ensures InitialObjects.selectedObjectType == "marker"
  {
  }

  /** A local create appends one and the same new object to both lists and touches
      nothing else of the store. */
  lemma AddObjectLocalAppendsToBoth(s: ObjectState, geometry: GeoPoint, symbol: string, freshId: string)
    ensures var r := AddObjectLocalStep(s, geometry, symbol, freshId);
      var o := NewObject(s, geometry, symbol, freshId);
      && o.id == freshId && o.geometry == geometry && o.properties.symbol == symbol
      && o.properties.name == s.selectedObjectType + " " + NatToString(|s.objects| + 1)
      && r == s.(objects := s.objects + [o], newObjects := s.newObjects + [o])
  {
  }

  /** `addIconToBank(t, i)` maps `t` to `i` and keeps every other entry. */
  lemma AddIconToBankSetsOneKey(bank: map<string, string>, t: string, i: string)
    ensures t in bank[t := i] && bank[t := i][t] == i
    ensures forall k :: k in bank && k != t ==> k in bank[t := i] && bank[t := i][k] == bank[k]
    ensures bank[t := i].Keys == bank.Keys + {t}
  {
  }

  lemma LoadObjectsReplacesList(s: ObjectState, ui: UiState, reply: Reply<seq<MapObjectResponse>>)
    ensures var e := LoadObjectsStep(s, ui, reply);
      && e.calls == [ObjectsGetAll] && e.outcome == Fulfilled
      && e.store.newObjects == s.newObjects
      && e.ui == ui.(isLoading := false, error := e.ui.error)
      && (reply.Resolved? ==> e.store == s.(objects := DecodeObjects(reply.value)) && e.ui.error == Null)
      && (reply.Rejected? ==> e.store == s && e.ui.error == Some(MessageOr(reply.reason, LOAD_OBJECTS_FAILED)))
  {
  }

  lemma DeleteUnsavedObjectIsLocal(s: ObjectState, ui: UiState, id: string, reply: Reply<()>)
    requires HasId(s.newObjects, id)
    ensures var e := DeleteObjectStep(s, ui, id, reply);
      && e.calls == [] && e.ui == ui
      && e.store.newObjects == Without(s.newObjects, ObjectId, id)
      && e.store.objects == Without(s.objects, ObjectId, id)
      && (forall o :: o in e.store.objects <==> o in s.objects && o.id != id)
  {
  }

  lemma DeletePersistedObjectCallsService(s: ObjectState, ui: UiState, id: string, reply: Reply<()>)
    requires !HasId(s.newObjects, id)
    ensures var e := DeleteObjectStep(s, ui, id, reply);
      && e.calls == [ObjectsDelete(id)]
      && e.store.newObjects == s.newObjects
      && !e.ui.isLoading && e.ui.drawingMode == ui.drawingMode
      && (reply.Resolved? ==>
            && (forall o :: o in e.store.objects <==> o in s.objects && o.id != id)
            && e.ui.error == Null
            && e.ui.selectedObjectId == (if ui.selectedObjectId == Some(id) then Null else ui.selectedObjectId))
      && (reply.Rejected? ==>
            && e.store == s
            && e.ui == ui.(isLoading := false, error := Some(MessageOr(reply.reason, DELETE_OBJECT_FAILED))))
  {
  }

  /** A bulk save sends the encoded unsaved list and changes no state at all, so the next
      save sends the same objects again. */
  lemma SaveObjectsKeepsUnsaved(s: ObjectState, ui: UiState, reply: Reply<()>, reply2: Reply<()>)
    ensures var e := SaveObjectsStep(s, ui, reply);
      && e.store == s && e.ui == ui
      && e.calls == [ObjectsSaveBulk(ToGeoJsonObjects(s.newObjects))]
      && e.outcome == (if reply.Resolved? then Fulfilled else Threw(reply.reason))
      && SaveObjectsStep(e.store, e.ui, reply2).calls == e.calls
  {
  }

  /** No operation of the store leaves both an object and a polygon selected. */
  lemma ObjectStepsKeepAtMostOneSelected(s: ObjectState, ui: UiState, load: Reply<seq<MapObjectResponse>>, id: string, reply: Reply<()>)
    requires AtMostOneSelected(ui)
    ensures AtMostOneSelected(LoadObjectsStep(s, ui, load).ui)
    ensures AtMostOneSelected(DeleteObjectStep(s, ui, id, reply).ui)
    ensures AtMostOneSelected(SaveObjectsStep(s, ui, reply).ui)
  {
  }

  // ---------------------------------------------------------------------------------
  // The store

  class ObjectStore {
    var objects: seq<MapObject>
    var newObjects: seq<MapObject>
    var selectedObjectType: string
    var iconBank: map<string, string>
    var selectedIcon: string
    const mapStore: MapStore

    ghost function State(): ObjectState
      reads this
    {
      ObjectState(objects, newObjects, selectedObjectType, iconBank, selectedIcon)
    }

    constructor (mapStore: MapStore)
      ensures this.mapStore == mapStore && State() == InitialObjects
    {
      this.mapStore := mapStore;
      objects := [];
      newObjects := [];
      selectedObjectType := DEFAULT_OBJECT_TYPE;
      iconBank := DEFAULT_ICON_BANK;
      selectedIcon := DEFAULT_ICON_BANK[DEFAULT_OBJECT_TYPE];
    }

    method AddIconToBank(t: string, icon: string)
      modifies this`iconBank
      ensures iconBank == old(iconBank)[t := icon]
    {
      iconBank := iconBank[t := icon];
    }

    method LoadObjects(reply: Reply<seq<MapObjectResponse>>) returns (calls: seq<Call>)
      modifies this, mapStore
      ensures Effect(State(), mapStore.State(), calls, Fulfilled)
           == LoadObjectsStep(old(State()), old(mapStore.State()), reply)
      ensures old(mapStore.Valid()) ==> mapStore.Valid()
    {
      mapStore.SetLoading(true);
      mapStore.ClearError();
      calls := [ObjectsGetAll];
      match reply {
        case Resolved(data) =>
          objects := DecodeObjects(data);
        case Rejected(reason) =>
          mapStore.SetError(Some(MessageOr(reason, LOAD_OBJECTS_FAILED)));
      }
      mapStore.SetLoading(false);
    }

    method AddObjectLocal(geometry: GeoPoint, symbol: string, freshId: string) returns (created: MapObject)
      modifies this`objects, this`newObjects
      ensures created == NewObject(old(State()), geometry, symbol, freshId)
      ensures State() == AddObjectLocalStep(old(State()), geometry, symbol, freshId)
    {
      created := MapObject(freshId, geometry, ObjectProperties(symbol, selectedObjectType + " " + NatToString(|objects| + 1)));
      newObjects := newObjects + [created];
      objects := objects + [created];
    }

    method DeleteObject(id: string, reply: Reply<()>) returns (calls: seq<Call>)
      modifies this, mapStore
      ensures Effect(State(), mapStore.State(), calls, Fulfilled)
           == DeleteObjectStep(old(State()), old(mapStore.State()), id, reply)
      ensures old(mapStore.Valid()) ==> mapStore.Valid()
    {
      var beforeLength := |newObjects|;
      newObjects := Without(newObjects, ObjectId, id);
      if |newObjects| < beforeLength {
        objects := Without(objects, ObjectId, id);
        calls := [];
        return;
      }
      mapStore.SetLoading(true);
      mapStore.ClearError();
      calls := [ObjectsDelete(id)];
      match reply {
        case Resolved(_) =>
          objects := Without(objects, ObjectId, id);
          if mapStore.selectedObjectId == Some(id) {
            mapStore.SetSelectedObject(Null);
          }
        case Rejected(reason) =>
          mapStore.SetError(Some(MessageOr(reason, DELETE_OBJECT_FAILED)));
      }
      mapStore.SetLoading(false);
    }

    /** The first object whose id is the selected object id, if any. */
    function SelectedObject(): (r: Nullable<MapObject>)
      reads this, mapStore
      ensures r.Null? <==> (mapStore.selectedObjectId.Null?
        || forall j :: 0 <= j < |objects| ==> objects[j].id != mapStore.selectedObjectId.value)
      ensures r.Some? ==> r.value in objects && Some(r.value.id) == mapStore.selectedObjectId
      ensures r.Some? ==> forall j :: 0 <= j < |objects| && objects[j].id == r.value.id ==> r.value == objects[j] || exists k :: 0 <= k < j && objects[k] == r.value
    {
      Find(objects, ObjectId, mapStore.selectedObjectId)
    }

    /** Sends the unsaved objects; changes nothing. */
    method SaveObjectsToServer(reply: Reply<()>) returns (outcome: Settled, calls: seq<Call>)
      ensures calls == [ObjectsSaveBulk(ToGeoJsonObjects(newObjects))]
      ensures outcome == (if reply.Resolved? then Fulfilled else Threw(reply.reason))
      ensures Effect(State(), mapStore.State(), calls, outcome) == SaveObjectsStep(State(), mapStore.State(), reply)
    {
      calls := [ObjectsSaveBulk(ToGeoJsonObjects(newObjects))];
      match reply {
        case Resolved(_) => outcome := Fulfilled;
        case Rejected(reason) => outcome := Threw(reason);
      }
    }
  }
}
