/** The polygon store (src/stores/PolygonStore.tsx): the polygon list, its unsaved
    subset, the drawing buffer, and their reconciliation with the `polygons` service. */
module Polygons {
  import opened Types
  import opened Services
  import opened JsText
  import opened JsArrays
  import opened GeoJson
  import opened MapState

  const LOAD_POLYGONS_FAILED := "Failed to load polygons"
  const DELETE_POLYGON_FAILED := "Failed to delete polygon"
  const DELETE_ALL_POLYGONS_FAILED := "Failed to delete all polygons"

  /** The `TypeError` thrown by `toGeoJsonPolygons` on an empty ring, in V8's wording. */
  const EMPTY_RING_ERROR := ErrorInstance("Cannot read properties of undefined (reading '0')")

  // ---------------------------------------------------------------------------------
  // Decoding the server's structured polygons

  /** `{ lng: pos.values[0], lat: pos.values[1] }` */
  function DecodePosition(pos: GeoCoordinatesResponse): GeoPoint
  {
    GeoPoint(lat := pos.values.1, lng := pos.values.0)
  }

  function DecodeRing(positions: seq<GeoCoordinatesResponse>): (r: seq<GeoPoint>)
    ensures |r| == |positions|
    ensures forall i :: 0 <= i < |positions| ==>
      r[i].lng == positions[i].values.0 && r[i].lat == positions[i].values.1
  {
    seq(|positions|, i requires 0 <= i < |positions| => DecodePosition(positions[i]))
  }

  /** One server polygon: id and name kept, rings `[exterior, ...holes]` in server order. */
  function DecodePolygon(response: MapPolygonResponse): (p: MapPolygon)
    ensures p.id == response.id && p.name == response.name
    ensures |p.coordinates| == 1 + |response.holes|
    ensures p.coordinates[0] == DecodeRing(response.exterior)
    ensures forall k :: 0 <= k < |response.holes| ==> p.coordinates[k + 1] == DecodeRing(response.holes[k])
  {
    var holes := seq(|response.holes|, k requires 0 <= k < |response.holes| => DecodeRing(response.holes[k]));
    MapPolygon(response.id, [DecodeRing(response.exterior)] + holes, response.name)
  }

  function DecodePolygons(responses: seq<MapPolygonResponse>): (r: seq<MapPolygon>)
    ensures |r| == |responses|
    ensures forall i :: 0 <= i < |responses| ==> r[i] == DecodePolygon(responses[i])
  {
    seq(|responses|, i requires 0 <= i < |responses| => DecodePolygon(responses[i]))
  }

  /** The structured form in which a server that stores a request faithfully returns it:
      the first ring as exterior, the others as holes. */
  predicate PositionsArePairs(rings: seq<seq<Position>>)
  {
    forall j, i :: 0 <= j < |rings| && 0 <= i < |rings[j]| ==> |rings[j][i]| == 2
  }

  function StoredPosition(pos: Position): GeoCoordinatesResponse
    requires |pos| == 2
  {
    GeoCoordinatesResponse((pos[0], pos[1]), pos[0], pos[1])
  }

  function StoredRing(ring: seq<Position>): seq<GeoCoordinatesResponse>
    requires forall i :: 0 <= i < |ring| ==> |ring[i]| == 2
  {
    seq(|ring|, i requires 0 <= i < |ring| => StoredPosition(ring[i]))
  }

  function StoredPolygon(id: string, request: MapPolygonRequest): MapPolygonResponse
    requires |request.coordinates| > 0 && PositionsArePairs(request.coordinates)
  {
    var rings := request.coordinates;
    MapPolygonResponse(
      id,
      StoredRing(rings[0]),
      seq(|rings| - 1, k requires 0 <= k < |rings| - 1 => StoredRing(rings[k + 1])),
      request.name)
  }

  /** One ring saved and read back is the ring closed on the point level. */
  lemma ReloadOfSavedRing(ring: seq<GeoPoint>)
    requires |ring| > 0
    ensures forall i :: 0 <= i < |EncodeRing(ring)| ==> |EncodeRing(ring)[i]| == 2
    ensures DecodeRing(StoredRing(EncodeRing(ring))) == CloseRing(ring)
  {
    var closed := CloseRing(ring);
    var wire := EncodeRing(ring);
    var back := DecodeRing(StoredRing(wire));
    forall i | 0 <= i < |closed| ensures back[i] == closed[i] {
      assert wire[i] == [closed[i].lng, closed[i].lat];
    }
  }

  /** The encoded rings of a polygon consist of `[lng, lat]` pairs. */
  lemma EncodedPositionsArePairs(p: MapPolygon)
    requires RingsNonEmpty(p)
    ensures PositionsArePairs(EncodePolygon(p).coordinates)
  {
    var rings := EncodePolygon(p).coordinates;
    forall j, i | 0 <= j < |rings| && 0 <= i < |rings[j]| ensures |rings[j][i]| == 2 {
      ReloadOfSavedRing(p.coordinates[j]);
    }
  }

  /** Ring `j` of a stored request, read back, is ring `j` of the request decoded. */
  lemma StoredRingReadBack(serverId: string, request: MapPolygonRequest, j: nat)
    requires |request.coordinates| > 0 && PositionsArePairs(request.coordinates)
    requires j < |request.coordinates|
    ensures DecodePolygon(StoredPolygon(serverId, request)).coordinates[j] == DecodeRing(StoredRing(request.coordinates[j]))
  {
    var response := StoredPolygon(serverId, request);
    if j == 0 {
      assert response.exterior == StoredRing(request.coordinates[0]);
    } else {
      assert response.holes[j - 1] == StoredRing(request.coordinates[j]);
    }
  }

  /** Ring `j` of a saved polygon, read back, is ring `j` closed. */
  lemma ReloadOfSavedPolygonRing(p: MapPolygon, serverId: string, j: nat)
    requires |p.coordinates| > 0 && RingsNonEmpty(p)
    requires j < |p.coordinates|
    ensures PositionsArePairs(EncodePolygon(p).coordinates)
    ensures DecodePolygon(StoredPolygon(serverId, EncodePolygon(p))).coordinates[j] == CloseRing(p.coordinates[j])
  {
    EncodedPositionsArePairs(p);
    var request := EncodePolygon(p);
    StoredRingReadBack(serverId, request, j);
    assert request.coordinates[j] == EncodeRing(p.coordinates[j]);
    ReloadOfSavedRing(p.coordinates[j]);
  }

  /** Saving a polygon and loading it back yields the same polygon under the server's id,
      with every ring closed. */
  lemma ReloadOfSavedPolygon(p: MapPolygon, serverId: string)
    requires |p.coordinates| > 0 && RingsNonEmpty(p)
    ensures PositionsArePairs(EncodePolygon(p).coordinates)
    ensures var back := DecodePolygon(StoredPolygon(serverId, EncodePolygon(p)));
      && back.id == serverId && back.name == p.name
      && |back.coordinates| == |p.coordinates|
      && forall j :: 0 <= j < |p.coordinates| ==> back.coordinates[j] == CloseRing(p.coordinates[j])
  {
    EncodedPositionsArePairs(p);
    forall j | 0 <= j < |p.coordinates|
      ensures DecodePolygon(StoredPolygon(serverId, EncodePolygon(p))).coordinates[j] == CloseRing(p.coordinates[j])
    {
      ReloadOfSavedPolygonRing(p, serverId, j);
    }
  }

  /** A polygon whose rings are closed already comes back from a save exactly as it was,
      under the server's id. */
  lemma ReloadOfClosedPolygon(p: MapPolygon, serverId: string)
    requires |p.coordinates| > 0 && RingsNonEmpty(p)
    requires forall j :: 0 <= j < |p.coordinates| ==> IsClosed(p.coordinates[j])
    ensures PositionsArePairs(EncodePolygon(p).coordinates)
    ensures DecodePolygon(StoredPolygon(serverId, EncodePolygon(p))) == p.(id := serverId)
  {
    ReloadOfSavedPolygon(p, serverId);
    var back := DecodePolygon(StoredPolygon(serverId, EncodePolygon(p)));
    assert back.coordinates == p.coordinates;
  }

  // ---------------------------------------------------------------------------------
  // The store's state and the effect of each operation

  datatype PolygonState = PolygonState(
    polygons: seq<MapPolygon>,
    newPolygons: seq<MapPolygon>,
    currentDrawingPoints: seq<GeoPoint>)

  const InitialPolygons := PolygonState([], [], [])

  function PolygonId(p: MapPolygon): string
  {
    p.id
  }

  /** The polygon `addPolygonLocaly` creates: `poly-<stamp>`, named after the list's new length. */
  function NewPolygon(s: PolygonState, coordinates: seq<seq<GeoPoint>>, stamp: string): MapPolygon
  {
    MapPolygon("poly-" + stamp, coordinates, "Polygon " + NatToString(|s.polygons| + 1))
  }

  function HasId(ps: seq<MapPolygon>, id: string): bool
  {
    exists p :: p in ps && p.id == id
  }

  function LoadPolygonsStep(s: PolygonState, ui: UiState, reply: Reply<seq<MapPolygonResponse>>): Effect<PolygonState>
  {
    var started := WithoutError(WithLoading(ui, true));
    match reply
    case Resolved(data) =>
      Effect(s.(polygons := DecodePolygons(data)), WithLoading(started, false), [PolygonsGetAll], Fulfilled)
    case Rejected(reason) =>
      var failed := WithError(started, Some(MessageOr(reason, LOAD_POLYGONS_FAILED)));
      Effect(s, WithLoading(failed, false), [PolygonsGetAll], Fulfilled)
  }

  function AddPolygonLocalyStep(s: PolygonState, ui: UiState, coordinates: seq<seq<GeoPoint>>, stamp: string): Effect<PolygonState>
  {
    var p := NewPolygon(s, coordinates, stamp);
    var store := PolygonState(s.polygons + [p], s.newPolygons + [p], []);
    Effect(store, WithLoading(WithoutError(WithLoading(ui, true)), false), [], Fulfilled)
  }

  function DeletePolygonStep(s: PolygonState, ui: UiState, id: string, reply: Reply<()>): Effect<PolygonState>
  {
    var remaining := Without(s.newPolygons, PolygonId, id);
    if |remaining| < |s.newPolygons| then
      Effect(s.(newPolygons := remaining, polygons := Without(s.polygons, PolygonId, id)), ui, [], Fulfilled)
    else
      var started := WithoutError(WithLoading(ui, true));
      var kept := s.(newPolygons := remaining);
      match reply
      case Resolved(_) =>
        var deselected := if started.selectedPolygonId == Some(id) then WithSelectedPolygon(started, Null) else started;
        Effect(kept.(polygons := Without(s.polygons, PolygonId, id)), WithLoading(deselected, false), [PolygonsDelete(id)], Fulfilled)
      case Rejected(reason) =>
        var failed := WithError(started, Some(MessageOr(reason, DELETE_POLYGON_FAILED)));
        Effect(kept, WithLoading(failed, false), [PolygonsDelete(id)], Fulfilled)
  }

  function DeleteAllPolygonsStep(s: PolygonState, ui: UiState, reply: Reply<()>): Effect<PolygonState>
  {
    var started := WithoutError(WithLoading(ui, true));
    match reply
    case Resolved(_) =>
      Effect(s.(polygons := []), WithLoading(WithoutSelections(started), false), [PolygonsDeleteAll], Fulfilled)
    case Rejected(reason) =>
      var failed := WithError(started, Some(MessageOr(reason, DELETE_ALL_POLYGONS_FAILED)));
      Effect(s, WithLoading(failed, false), [PolygonsDeleteAll], Fulfilled)
  }

  function SavePolygonsStep(s: PolygonState, ui: UiState, reply: Reply<()>): Effect<PolygonState>
  {
    if !Encodable(s.newPolygons) then Effect(s, ui, [], Threw(EMPTY_RING_ERROR))
    else
      var sent := [PolygonsSaveBulk(ToGeoJsonPolygons(s.newPolygons))];
      match reply
      case Resolved(_) => Effect(s.(newPolygons := []), ui, sent, Fulfilled)
      case Rejected(reason) => Effect(s, ui, sent, Threw(reason))
  }

  // ---------------------------------------------------------------------------------
  // What the operations promise

  /** A load makes one `getAll` call and leaves loading off; on success it replaces the
      list wholesale with the decoded server data, on failure it keeps the list and
      reports the message (or the fallback). The unsaved list and the buffer survive. */
  lemma LoadPolygonsReplacesList(s: PolygonState, ui: UiState, reply: Reply<seq<MapPolygonResponse>>)
    ensures var e := LoadPolygonsStep(s, ui, reply);
      && e.calls == [PolygonsGetAll] && e.outcome == Fulfilled
      && e.store.newPolygons == s.newPolygons
      && e.store.currentDrawingPoints == s.currentDrawingPoints
      && e.ui == ui.(isLoading := false, error := e.ui.error)
      && (reply.Resolved? ==> e.store.polygons == DecodePolygons(reply.value) && e.ui.error == Null)
      && (reply.Rejected? ==> e.store.polygons == s.polygons
                              && e.ui.error == Some(MessageOr(reply.reason, LOAD_POLYGONS_FAILED)))
  {
  }

  /** A local create appends one and the same new polygon to both lists, empties the
      buffer, makes no call, and ends with loading off and no error. */
  lemma AddPolygonLocalyAppendsToBoth(s: PolygonState, ui: UiState, coordinates: seq<seq<GeoPoint>>, stamp: string)
    ensures var e := AddPolygonLocalyStep(s, ui, coordinates, stamp);
      var p := NewPolygon(s, coordinates, stamp);
      && p.coordinates == coordinates && p.name == "Polygon " + NatToString(|s.polygons| + 1)
      && e.store.polygons == s.polygons + [p] && e.store.newPolygons == s.newPolygons + [p]
      && e.store.currentDrawingPoints == []
      && e.calls == [] && e.ui == ui.(isLoading := false, error := Null)
  {
  }

  /** Deleting an unsaved polygon is purely local: no service call, no change to the UI
      state, and the id is gone from both lists, everything else kept in order. */
  lemma DeleteUnsavedPolygonIsLocal(s: PolygonState, ui: UiState, id: string, reply: Reply<()>)
    requires HasId(s.newPolygons, id)
    ensures var e := DeletePolygonStep(s, ui, id, reply);
      && e.calls == [] && e.ui == ui
      && e.store.newPolygons == Without(s.newPolygons, PolygonId, id)
      && e.store.polygons == Without(s.polygons, PolygonId, id)
      && (forall p :: p in e.store.polygons <==> p in s.polygons && p.id != id)
      && e.store.currentDrawingPoints == s.currentDrawingPoints
  {
  }

  /** Deleting a persisted polygon makes exactly one delete call with its id and ends with
      loading off. On success every polygon with that id is gone and a selection of it is
      cleared; on failure the list is kept and the error reported. */
  lemma DeletePersistedPolygonCallsService(s: PolygonState, ui: UiState, id: string, reply: Reply<()>)
    requires !HasId(s.newPolygons, id)
    ensures var e := DeletePolygonStep(s, ui, id, reply);
      && e.calls == [PolygonsDelete(id)]
      && e.store.newPolygons == s.newPolygons
      && e.store.currentDrawingPoints == s.currentDrawingPoints
      && !e.ui.isLoading && e.ui.drawingMode == ui.drawingMode
      && (reply.Resolved? ==>
            && (forall p :: p in e.store.polygons <==> p in s.polygons && p.id != id)
            && e.ui.error == Null
            && e.ui.selectedPolygonId == (if ui.selectedPolygonId == Some(id) then Null else ui.selectedPolygonId))
      && (reply.Rejected? ==>
            && e.store.polygons == s.polygons
            && e.ui == ui.(isLoading := false, error := Some(MessageOr(reply.reason, DELETE_POLYGON_FAILED))))
  {
  }

  /** Deleting all polygons empties the list and clears both selections but keeps the
      unsaved list; a failure changes nothing but loading and the error. */
  lemma DeleteAllPolygonsKeepsUnsaved(s: PolygonState, ui: UiState, reply: Reply<()>)
    ensures var e := DeleteAllPolygonsStep(s, ui, reply);
      && e.calls == [PolygonsDeleteAll]
      && e.store.newPolygons == s.newPolygons
      && e.store.currentDrawingPoints == s.currentDrawingPoints
      && (reply.Resolved? ==>
            && e.store.polygons == []
            && e.ui == ui.(isLoading := false, error := Null, selectedPolygonId := Null, selectedObjectId := Null))
      && (reply.Rejected? ==>
            && e.store == s
            && e.ui == ui.(isLoading := false, error := Some(MessageOr(reply.reason, DELETE_ALL_POLYGONS_FAILED))))
  {
  }

  /** A bulk save sends the encoded unsaved list and empties it only after success; a
      rejection propagates and keeps it. The main list and the UI state are never touched. */
  lemma SavePolygonsClearsUnsavedOnSuccess(s: PolygonState, ui: UiState, reply: Reply<()>)
    ensures var e := SavePolygonsStep(s, ui, reply);
      && e.ui == ui
      && e.store.polygons == s.polygons
      && e.store.currentDrawingPoints == s.currentDrawingPoints
      && (Encodable(s.newPolygons) ==>
            && e.calls == [PolygonsSaveBulk(ToGeoJsonPolygons(s.newPolygons))]
            && (reply.Resolved? ==> e.store.newPolygons == [] && e.outcome == Fulfilled)
            && (reply.Rejected? ==> e.store.newPolygons == s.newPolygons && e.outcome == Threw(reply.reason)))
      && (!Encodable(s.newPolygons) ==> e.calls == [] && e.store == s && e.outcome.Threw?)
  {
  }

  /** No operation of the store leaves both a polygon and an object selected. */
  lemma PolygonStepsKeepAtMostOneSelected(s: PolygonState, ui: UiState, load: Reply<seq<MapPolygonResponse>>,
                                          coordinates: seq<seq<GeoPoint>>, stamp: string, id: string, reply: Reply<()>)
    requires AtMostOneSelected(ui)
    ensures AtMostOneSelected(LoadPolygonsStep(s, ui, load).ui)
    ensures AtMostOneSelected(AddPolygonLocalyStep(s, ui, coordinates, stamp).ui)
    ensures AtMostOneSelected(DeletePolygonStep(s, ui, id, reply).ui)
    ensures AtMostOneSelected(DeleteAllPolygonsStep(s, ui, reply).ui)
    ensures AtMostOneSelected(SavePolygonsStep(s, ui, reply).ui)
  {
  }

  // ---------------------------------------------------------------------------------
  // The store

  class PolygonStore {
    var polygons: seq<MapPolygon>
    var newPolygons: seq<MapPolygon>
    var currentDrawingPoints: seq<GeoPoint>
    const mapStore: MapStore

    ghost function State(): PolygonState
      reads this
    {
      PolygonState(polygons, newPolygons, currentDrawingPoints)
    }

    constructor (mapStore: MapStore)
      ensures this.mapStore == mapStore && State() == InitialPolygons
    {
      this.mapStore := mapStore;
      polygons := [];
      newPolygons := [];
      currentDrawingPoints := [];
    }

    method LoadPolygons(reply: Reply<seq<MapPolygonResponse>>) returns (calls: seq<Call>)
      modifies this, mapStore
      ensures Effect(State(), mapStore.State(), calls, Fulfilled)
           == LoadPolygonsStep(old(State()), old(mapStore.State()), reply)
      ensures old(mapStore.Valid()) ==> mapStore.Valid()
    {
      mapStore.SetLoading(true);
      mapStore.ClearError();
      calls := [PolygonsGetAll];
      match reply {
        case Resolved(data) =>
          polygons := DecodePolygons(data);
        case Rejected(reason) =>
          mapStore.SetError(Some(MessageOr(reason, LOAD_POLYGONS_FAILED)));
      }
      mapStore.SetLoading(false);
    }

    method AddDrawingPoint(point: GeoPoint)
      modifies this`currentDrawingPoints
      ensures currentDrawingPoints == old(currentDrawingPoints) + [point]
    {
      currentDrawingPoints := currentDrawingPoints + [point];
    }

    /** A copy of the buffer once it holds a polygon's worth of points, else `null`. */
    function FinishDrawing(): (r: Nullable<seq<GeoPoint>>)
      reads this
      ensures r.Some? <==> |currentDrawingPoints| >= 3
      ensures r.Some? ==> r.value == currentDrawingPoints
    {
      if |currentDrawingPoints| >= 3 then Some(currentDrawingPoints) else Null
    }

    method ClearDrawingPoints()
      modifies this`currentDrawingPoints
      ensures currentDrawingPoints == []
    {
      currentDrawingPoints := [];
    }

    method AddPolygonLocaly(coordinates: seq<seq<GeoPoint>>, stamp: string) returns (created: MapPolygon)
      modifies this, mapStore
      ensures created == NewPolygon(old(State()), coordinates, stamp)
      ensures Effect(State(), mapStore.State(), [], Fulfilled)
           == AddPolygonLocalyStep(old(State()), old(mapStore.State()), coordinates, stamp)
      ensures old(mapStore.Valid()) ==> mapStore.Valid()
    {
      mapStore.SetLoading(true);
      mapStore.ClearError();
      created := MapPolygon("poly-" + stamp, coordinates, "Polygon " + NatToString(|polygons| + 1));
      newPolygons := newPolygons + [created];
      polygons := polygons + [created];
      ClearDrawingPoints();
      mapStore.SetLoading(false);
    }

    method DeletePolygon(id: string, reply: Reply<()>) returns (calls: seq<Call>)
      modifies this, mapStore
      ensures Effect(State(), mapStore.State(), calls, Fulfilled)
           == DeletePolygonStep(old(State()), old(mapStore.State()), id, reply)
      ensures old(mapStore.Valid()) ==> mapStore.Valid()
    {
      var beforeLength := |newPolygons|;
      newPolygons := Without(newPolygons, PolygonId, id);
      if |newPolygons| < beforeLength {
        polygons := Without(polygons, PolygonId, id);
        calls := [];
        return;
      }
      mapStore.SetLoading(true);
      mapStore.ClearError();
      calls := [PolygonsDelete(id)];
      match reply {
        case Resolved(_) =>
          polygons := Without(polygons, PolygonId, id);
          if mapStore.selectedPolygonId == Some(id) {
            mapStore.SetSelectedPolygon(Null);
          }
        case Rejected(reason) =>
          mapStore.SetError(Some(MessageOr(reason, DELETE_POLYGON_FAILED)));
      }
      mapStore.SetLoading(false);
    }

    method DeleteAllPolygons(reply: Reply<()>) returns (calls: seq<Call>)
      modifies this, mapStore
      ensures Effect(State(), mapStore.State(), calls, Fulfilled)
           == DeleteAllPolygonsStep(old(State()), old(mapStore.State()), reply)
      ensures old(mapStore.Valid()) ==> mapStore.Valid()
    {
      mapStore.SetLoading(true);
      mapStore.ClearError();
      calls := [PolygonsDeleteAll];
      match reply {
        case Resolved(_) =>
          polygons := [];
          mapStore.ClearSelections();
        case Rejected(reason) =>
          mapStore.SetError(Some(MessageOr(reason, DELETE_ALL_POLYGONS_FAILED)));
      }
      mapStore.SetLoading(false);
    }

    /** The first polygon whose id is the selected polygon id, if any. */
    function SelectedPolygon(): (r: Nullable<MapPolygon>)
      reads this, mapStore
      ensures r.Null? <==> (mapStore.selectedPolygonId.Null?
        || forall j :: 0 <= j < |polygons| ==> polygons[j].id != mapStore.selectedPolygonId.value)
      ensures r.Some? ==> r.value in polygons && Some(r.value.id) == mapStore.selectedPolygonId
      ensures r.Some? ==> forall j :: 0 <= j < |polygons| && polygons[j].id == r.value.id ==> r.value == polygons[j] || exists k :: 0 <= k < j && polygons[k] == r.value
    {
      Find(polygons, PolygonId, mapStore.selectedPolygonId)
    }

    method SavePolygonsToServer(reply: Reply<()>) returns (outcome: Settled, calls: seq<Call>)
      modifies this`newPolygons
      ensures Effect(State(), mapStore.State(), calls, outcome)
           == SavePolygonsStep(old(State()), mapStore.State(), reply)
    {
      if !Encodable(newPolygons) {
        outcome, calls := Threw(EMPTY_RING_ERROR), [];
        return;
      }
      calls := [PolygonsSaveBulk(ToGeoJsonPolygons(newPolygons))];
      match reply {
        case Resolved(_) =>
          newPolygons := [];
          outcome := Fulfilled;
        case Rejected(reason) =>
          outcome := Threw(reason);
      }
    }
  }
}
