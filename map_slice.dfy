/** The map slice: the selected web map, the list of the user's maps, a busy
    flag, the last error and the visibility of the two map widgets, with six
    setter reducers. */
module MapSlice {
  import opened Common

  /** A web map as listed in the maps panel. */
  datatype MapItem = MapItem(
    id: string,
    title: string,
    snippet: string,
    thumbnailUrl: string,
    owner: string,
    created: int,
    modified: int)

  datatype MapState = MapState(
    currentMapId: Option<string>,
    availableMaps: seq<MapItem>,
    loading: bool,
    error: Option<string>,
    layerListVisible: bool,
    legendVisible: bool)

  /** One constructor per reducer, carrying its payload. */
  datatype MapAction =
    | SetCurrentMapId(id: Option<string>)
    | SetAvailableMaps(maps: seq<MapItem>)
    | SetLoading(loading: bool)
    | SetError(error: Option<string>)
    | SetLayerListVisible(visible: bool)
    | SetLegendVisible(visible: bool)

  datatype MapField =
    CurrentMapIdField | AvailableMapsField | LoadingField | ErrorField | LayerListVisibleField | LegendVisibleField

  /** `s` and `t` agree on field `f`. */
  predicate SameField(s: MapState, t: MapState, f: MapField) {
    match f
    case CurrentMapIdField => s.currentMapId == t.currentMapId
    case AvailableMapsField => s.availableMaps == t.availableMaps
    case LoadingField => s.loading == t.loading
    case ErrorField => s.error == t.error
    case LayerListVisibleField => s.layerListVisible == t.layerListVisible
    case LegendVisibleField => s.legendVisible == t.legendVisible
  }

  /** The one field each setter assigns. */
  function Writes(a: MapAction): set<MapField> {
    match a
    case SetCurrentMapId(_) => {CurrentMapIdField}
    case SetAvailableMaps(_) => {AvailableMapsField}
    case SetLoading(_) => {LoadingField}
    case SetError(_) => {ErrorField}
    case SetLayerListVisible(_) => {LayerListVisibleField}
    case SetLegendVisible(_) => {LegendVisibleField}
  }

  /** `initialState`: no map selected, no maps listed, idle, no error, both
      widgets hidden. */
  function InitialState(): (s: MapState)
    ensures s.currentMapId == None && s.availableMaps == [] && !s.loading && s.error == None
    ensures !s.layerListVisible && !s.legendVisible
  {
    MapState(None, [], false, None, false, false)
  }

  /** The slice reducer: each setter writes its payload to its own field. */
  function Reduce(s: MapState, a: MapAction): (r: MapState)
    ensures |Writes(a)| == 1
    ensures forall f :: f !in Writes(a) ==> SameField(s, r, f)
    ensures a.SetCurrentMapId? ==> r.currentMapId == a.id
    ensures a.SetAvailableMaps? ==> r.availableMaps == a.maps
    ensures a.SetLoading? ==> r.loading == a.loading
    ensures a.SetError? ==> r.error == a.error
    ensures a.SetLayerListVisible? ==> r.layerListVisible == a.visible
    ensures a.SetLegendVisible? ==> r.legendVisible == a.visible
  {
    match a
    case SetCurrentMapId(id) => s.(currentMapId := id)
    case SetAvailableMaps(m) => s.(availableMaps := m)
    case SetLoading(b) => s.(loading := b)
    case SetError(e) => s.(error := e)
    case SetLayerListVisible(b) => s.(layerListVisible := b)
    case SetLegendVisible(b) => s.(legendVisible := b)
  }

  /** The state after reducing `actions` in order, starting from `s`. */
  function ReduceAll(s: MapState, actions: seq<MapAction>): MapState
    decreases |actions|
  {
    if actions == [] then s
    else Reduce(ReduceAll(s, actions[..|actions| - 1]), actions[|actions| - 1])
  }

  lemma {:induction false} ReduceAllAppend(s: MapState, xs: seq<MapAction>, ys: seq<MapAction>)
    ensures ReduceAll(s, xs + ys) == ReduceAll(ReduceAll(s, xs), ys)
    decreases |ys|
  {
    if ys == [] {
      assert xs + ys == xs;
    } else {
      assert (xs + ys)[..|xs + ys| - 1] == xs + ys[..|ys| - 1];
      ReduceAllAppend(s, xs, ys[..|ys| - 1]);
    }
  }

  /** Two consecutive writes to the same field equal the last write; with
      `a == b` this is idempotence. */
  lemma LastWriteWins(s: MapState, a: MapAction, b: MapAction)
    requires Writes(a) == Writes(b)
    ensures Reduce(Reduce(s, a), b) == Reduce(s, b)
  {
  }

  /** `setAvailableMaps` replaces the list: the result does not depend on the
      list that was there before. */
  lemma SetAvailableMapsReplaces(s: MapState, t: MapState, maps: seq<MapItem>)
    requires forall f :: f != AvailableMapsField ==> SameField(s, t, f)
    ensures Reduce(s, SetAvailableMaps(maps)) == Reduce(t, SetAvailableMaps(maps))
  {
    assert SameField(s, t, CurrentMapIdField) && SameField(s, t, LoadingField) && SameField(s, t, ErrorField);
    assert SameField(s, t, LayerListVisibleField) && SameField(s, t, LegendVisibleField);
  }

  /** Writes to different fields commute. */
  lemma DistinctWritesCommute(s: MapState, a: MapAction, b: MapAction)
    requires Writes(a) != Writes(b)
    ensures Reduce(Reduce(s, a), b) == Reduce(Reduce(s, b), a)
  {
  }

  /** The slice's state object, updated in place by its reducers. `log` is the
      history of actions the store has reduced. */
  class MapStore {
    var currentMapId: Option<string>
    var availableMaps: seq<MapItem>
    var loading: bool
    var error: Option<string>
    var layerListVisible: bool
    var legendVisible: bool
    ghost var log: seq<MapAction>

    function State(): MapState
      reads this
    {
      MapState(currentMapId, availableMaps, loading, error, layerListVisible, legendVisible)
    }

    /** The state is the fold of the history. */
    ghost predicate Valid()
      reads this
    {
      State() == ReduceAll(InitialState(), log)
    }

    constructor ()
      ensures Valid() && log == [] && State() == InitialState()
    {
      currentMapId, availableMaps, loading := None, [], false;
      error, layerListVisible, legendVisible := None, false, false;
      log := [];
    }

    method SetCurrentMapId(id: Option<string>)
      requires Valid()
      modifies this
      ensures Valid() && log == old(log) + [MapAction.SetCurrentMapId(id)]
      ensures State() == Reduce(old(State()), MapAction.SetCurrentMapId(id))
    {
      currentMapId := id;
      log := log + [MapAction.SetCurrentMapId(id)];
    }

    method SetAvailableMaps(maps: seq<MapItem>)
      requires Valid()
      modifies this
      ensures Valid() && log == old(log) + [MapAction.SetAvailableMaps(maps)]
      ensures State() == Reduce(old(State()), MapAction.SetAvailableMaps(maps))
    {
      availableMaps := maps;
      log := log + [MapAction.SetAvailableMaps(maps)];
    }

    method SetLoading(b: bool)
      requires Valid()
      modifies this
      ensures Valid() && log == old(log) + [MapAction.SetLoading(b)]
      ensures State() == Reduce(old(State()), MapAction.SetLoading(b))
    {
      loading := b;
      log := log + [MapAction.SetLoading(b)];
    }

    method SetError(e: Option<string>)
      requires Valid()
      modifies this
      ensures Valid() && log == old(log) + [MapAction.SetError(e)]
      ensures State() == Reduce(old(State()), MapAction.SetError(e))
    {
      error := e;
      log := log + [MapAction.SetError(e)];
    }

    method SetLayerListVisible(b: bool)
      requires Valid()
      modifies this
      ensures Valid() && log == old(log) + [MapAction.SetLayerListVisible(b)]
      ensures State() == Reduce(old(State()), MapAction.SetLayerListVisible(b))
    {
      layerListVisible := b;
      log := log + [MapAction.SetLayerListVisible(b)];
    }

    method SetLegendVisible(b: bool)
      requires Valid()
      modifies this
      ensures Valid() && log == old(log) + [MapAction.SetLegendVisible(b)]
      ensures State() == Reduce(old(State()), MapAction.SetLegendVisible(b))
    {
      legendVisible := b;
      log := log + [MapAction.SetLegendVisible(b)];
    }
  }
}
