/** The shared selection and UI state (src/stores/MapStore.tsx): drawing mode, the two
    selection ids, the loading flag and the error slot. */
module MapState {
  import opened Types
  import opened Services

  /** The five fields of the store, as one value. */
  datatype UiState = UiState(
    drawingMode: DrawingMode,
    selectedPolygonId: Nullable<string>,
    selectedObjectId: Nullable<string>,
    isLoading: bool,
    error: Nullable<string>)

  /** The store's one invariant: selecting one kind of entity deselects the other. */
  predicate AtMostOneSelected(ui: UiState)
  {
    ui.selectedPolygonId.Null? || ui.selectedObjectId.Null?
  }

  const InitialUi := UiState(DrawingMode.None, Null, Null, false, Null)

  /** What each setter does to the state. */
  function WithoutSelections(ui: UiState): UiState
  {
    ui.(selectedPolygonId := Null, selectedObjectId := Null)
  }

  function WithDrawingMode(ui: UiState, mode: DrawingMode): UiState
  {
    WithoutSelections(ui.(drawingMode := mode))
  }

  function WithSelectedPolygon(ui: UiState, id: Nullable<string>): UiState
  {
    ui.(selectedPolygonId := id, selectedObjectId := Null)
  }

  function WithSelectedObject(ui: UiState, id: Nullable<string>): UiState
  {
    ui.(selectedObjectId := id, selectedPolygonId := Null)
  }

  function WithLoading(ui: UiState, loading: bool): UiState
  {
    ui.(isLoading := loading)
  }

  function WithError(ui: UiState, error: Nullable<string>): UiState
  {
    ui.(error := error)
  }

  function WithoutError(ui: UiState): UiState
  {
    ui.(error := Null)
  }

  /** Entering a mode, whichever, clears both selections and nothing else but the mode. */
  lemma DrawingModeClearsSelections(ui: UiState, mode: DrawingMode)
    ensures var r := WithDrawingMode(ui, mode);
      && r.drawingMode == mode && r.selectedPolygonId == Null && r.selectedObjectId == Null
      && r.isLoading == ui.isLoading && r.error == ui.error
  {
  }

  /** Each selection setter sets its own id, nulls the other, and leaves mode, loading and
      error alone; `clearSelections` nulls both. */
  lemma SelectionSettersAreExclusive(ui: UiState, id: Nullable<string>)
    ensures var r := WithSelectedPolygon(ui, id);
      r.selectedPolygonId == id && r.selectedObjectId == Null
      && r.drawingMode == ui.drawingMode && r.isLoading == ui.isLoading && r.error == ui.error
    ensures var r := WithSelectedObject(ui, id);
      r.selectedObjectId == id && r.selectedPolygonId == Null
      && r.drawingMode == ui.drawingMode && r.isLoading == ui.isLoading && r.error == ui.error
    ensures var r := WithoutSelections(ui);
      r.selectedObjectId == Null && r.selectedPolygonId == Null
      && r.drawingMode == ui.drawingMode && r.isLoading == ui.isLoading && r.error == ui.error
  {
  }

  /** Every setter keeps the invariant; the selection-touching ones establish it outright. */
  lemma SettersKeepAtMostOneSelected(ui: UiState, mode: DrawingMode, id: Nullable<string>, loading: bool, error: Nullable<string>)
    ensures AtMostOneSelected(InitialUi)
    ensures AtMostOneSelected(WithDrawingMode(ui, mode))
    ensures AtMostOneSelected(WithSelectedPolygon(ui, id))
    ensures AtMostOneSelected(WithSelectedObject(ui, id))
    ensures AtMostOneSelected(WithoutSelections(ui))
    ensures AtMostOneSelected(ui) ==> AtMostOneSelected(WithLoading(ui, loading))
    ensures AtMostOneSelected(ui) ==> AtMostOneSelected(WithError(ui, error))
    ensures AtMostOneSelected(ui) ==> AtMostOneSelected(WithoutError(ui))
  {
  }

  /** The effect of one store operation: the store's new value, the new UI state, the
      service calls made, and how the operation settled. */
  datatype Effect<S> = Effect(store: S, ui: UiState, calls: seq<Call>, outcome: Settled)

  class MapStore {
    var drawingMode: DrawingMode
    var selectedPolygonId: Nullable<string>
    var selectedObjectId: Nullable<string>
    var isLoading: bool
    var error: Nullable<string>

    ghost function State(): UiState
      reads this
    {
      UiState(drawingMode, selectedPolygonId, selectedObjectId, isLoading, error)
    }

    ghost predicate Valid()
      reads this
    {
      AtMostOneSelected(State())
    }

    constructor ()
      ensures State() == InitialUi && Valid()
    {
      drawingMode := DrawingMode.None;
      selectedPolygonId := Null;
      selectedObjectId := Null;
      isLoading := false;
      error := Null;
    }

    method SetDrawingMode(mode: DrawingMode)
      modifies this
      ensures State() == WithDrawingMode(old(State()), mode) && Valid()
    {
      drawingMode := mode;
      ClearSelections();
    }

    method SetSelectedPolygon(id: Nullable<string>)
      modifies this
      ensures State() == WithSelectedPolygon(old(State()), id) && Valid()
    {
      selectedPolygonId := id;
      selectedObjectId := Null;
    }

    method SetSelectedObject(id: Nullable<string>)
      modifies this
      ensures State() == WithSelectedObject(old(State()), id) && Valid()
    {
      selectedObjectId := id;
      selectedPolygonId := Null;
    }

    method ClearSelections()
      modifies this
      ensures State() == WithoutSelections(old(State())) && Valid()
    {
      selectedPolygonId := Null;
      selectedObjectId := Null;
    }

    method SetLoading(loading: bool)
      modifies this
      ensures State() == WithLoading(old(State()), loading)
      ensures old(Valid()) ==> Valid()
    {
      isLoading := loading;
    }

    method SetError(error: Nullable<string>)
      modifies this
      ensures State() == WithError(old(State()), error)
      ensures old(Valid()) ==> Valid()
    {
      this.error := error;
    }

    method ClearError()
      modifies this
      ensures State() == WithoutError(old(State()))
      ensures old(Valid()) ==> Valid()
    {
      error := Null;
    }
  }
}
