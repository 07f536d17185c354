/** The maps panel: loads the signed-in user's web maps from a portal search,
    converts each search result to a map item, keeps the list both locally and
    in the map slice, and selects a map on click. The identity manager's
    credential and the search response are inputs. */
module MapsPanel {
  import opened Common
  import AuthSlice
  import MapSlice

  /** One entry of the search response's `results`; `snippet` and `thumbnail`
      may be missing. */
  datatype SearchResult = SearchResult(
    id: string,
    title: string,
    snippet: Option<string>,
    thumbnail: Option<string>,
    owner: string,
    created: int,
    modified: int)

  /** A value interpolated into a template literal: a missing token prints as "undefined". */
  function TokenText(token: Option<string>): (t: string)
    ensures token.Some? ==> t == token.value
    ensures token.None? ==> t == "undefined"
  {
    if token.Some? then token.value else "undefined"
  }

  /** The thumbnail address of a result: empty when it has no thumbnail,
      otherwise the item's info resource on the credential's server, with the
      token as a query parameter. */
  function ThumbnailUrl(c: AuthSlice.Credential, item: SearchResult): (u: string)
    ensures Truthy(item.thumbnail) ==>
      u == c.server + "/content/items/" + item.id + "/info/" + item.thumbnail.value + "?token=" + TokenText(c.token)
    ensures !Truthy(item.thumbnail) ==> u == ""
    ensures u != "" <==> Truthy(item.thumbnail)
  {
    if Truthy(item.thumbnail)
    then c.server + "/content/items/" + item.id + "/info/" + item.thumbnail.value + "?token=" + TokenText(c.token)
    else ""
  }

  /** One result as a map item: identity, title, owner and dates carried over,
      a missing or empty snippet becomes "". */
  function ToMapItem(c: AuthSlice.Credential, item: SearchResult): (m: MapSlice.MapItem)
    ensures m.id == item.id && m.title == item.title && m.owner == item.owner
    ensures m.created == item.created && m.modified == item.modified
    ensures Truthy(item.snippet) ==> m.snippet == item.snippet.value
    ensures !Truthy(item.snippet) ==> m.snippet == ""
    ensures m.thumbnailUrl == ThumbnailUrl(c, item)
  {
    MapSlice.MapItem(item.id, item.title, OrElse(item.snippet, ""), ThumbnailUrl(c, item), item.owner, item.created, item.modified)
  }

  /** `data.results.map(...)`: one item per result, in order. */
  function ToMapItems(c: AuthSlice.Credential, results: seq<SearchResult>): (ms: seq<MapSlice.MapItem>)
    ensures |ms| == |results|
    ensures forall i :: 0 <= i < |results| ==> ms[i] == ToMapItem(c, results[i])
    decreases |results|
  {
    if results == [] then []
    else [ToMapItem(c, results[0])] + ToMapItems(c, results[1..])
  }

  /** The conversion distributes over concatenation, so each page of results
      converts independently of the others. */
  lemma ToMapItemsAppend(c: AuthSlice.Credential, xs: seq<SearchResult>, ys: seq<SearchResult>)
    ensures ToMapItems(c, xs + ys) == ToMapItems(c, xs) + ToMapItems(c, ys)
  {
    var l, r := ToMapItems(c, xs + ys), ToMapItems(c, xs) + ToMapItems(c, ys);
    assert |l| == |r|;
    forall i | 0 <= i < |l|
      ensures l[i] == r[i]
    {
      if i < |xs| {
        assert (xs + ys)[i] == xs[i];
      } else {
        assert (xs + ys)[i] == ys[i - |xs|];
      }
    }
  }

  /** Whether the request chain succeeded. */
  predicate Loaded(credential: Outcome<AuthSlice.Credential>, results: Outcome<seq<SearchResult>>) {
    credential.Resolved? && results.Resolved?
  }

  /** What `loadUserMaps` dispatches when the SDK is present: the busy flag
      raised first and lowered last, the converted list in between on
      success only. */
  function LoadDispatches(credential: Outcome<AuthSlice.Credential>, results: Outcome<seq<SearchResult>>)
    : (r: seq<MapSlice.MapAction>)
    ensures |r| >= 2 && r[0] == MapSlice.SetLoading(true) && r[|r| - 1] == MapSlice.SetLoading(false)
    ensures |r| == 3 <==> Loaded(credential, results)
    ensures Loaded(credential, results) ==> r[1] == MapSlice.SetAvailableMaps(ToMapItems(credential.value, results.value))
    ensures !Loaded(credential, results) ==> |r| == 2
  {
    [MapSlice.SetLoading(true)]
      + (if Loaded(credential, results)
         then [MapSlice.SetAvailableMaps(ToMapItems(credential.value, results.value))]
         else [])
      + [MapSlice.SetLoading(false)]
  }

  /** The effect of one load on the map slice: idle afterwards, the list
      replaced on success and kept on failure, everything else untouched. */
  lemma {:induction false} LoadEffect(
    s: MapSlice.MapState, credential: Outcome<AuthSlice.Credential>, results: Outcome<seq<SearchResult>>)
    ensures var r := MapSlice.ReduceAll(s, LoadDispatches(credential, results));
      && !r.loading
      && r.availableMaps == (if Loaded(credential, results) then ToMapItems(credential.value, results.value)
                             else s.availableMaps)
      && r.currentMapId == s.currentMapId && r.error == s.error
      && r.layerListVisible == s.layerListVisible && r.legendVisible == s.legendVisible
  {
    var d := LoadDispatches(credential, results);
    var raise, lower := [MapSlice.SetLoading(true)], [MapSlice.SetLoading(false)];
    var middle := if Loaded(credential, results)
                  then [MapSlice.SetAvailableMaps(ToMapItems(credential.value, results.value))]
                  else [];
    assert d == raise + middle + lower;
    MapSlice.ReduceAllAppend(s, raise + middle, lower);
    MapSlice.ReduceAllAppend(s, raise, middle);
    assert raise[..0] == [] && lower[..0] == [];
    var first := MapSlice.ReduceAll(s, raise);
    assert first == MapSlice.Reduce(MapSlice.ReduceAll(s, []), raise[0]);
    if middle != [] {
      assert middle[..0] == [];
      assert MapSlice.ReduceAll(first, middle) == MapSlice.Reduce(MapSlice.ReduceAll(first, []), middle[0]);
    }
    var last := MapSlice.ReduceAll(first, middle);
    assert MapSlice.ReduceAll(last, lower) == MapSlice.Reduce(MapSlice.ReduceAll(last, []), lower[0]);
  }

  /** The panel's local state and the store it dispatches to. */
  class MapsPanel {
    var maps: seq<MapSlice.MapItem>
    const store: MapSlice.MapStore

    constructor (store: MapSlice.MapStore)
      ensures this.store == store && maps == []
    {
      this.store := store;
      maps := [];
    }

    /** `loadUserMaps()`: nothing at all without the SDK; otherwise the flag
        is raised, the local list and the slice's list are both replaced on
        success and both kept on failure, and the flag is always lowered. */
    method LoadUserMaps(
      esriPresent: bool, credential: Outcome<AuthSlice.Credential>, results: Outcome<seq<SearchResult>>)
      requires store.Valid()
      modifies this, store
      ensures store.Valid()
      ensures !esriPresent ==> unchanged(this) && unchanged(store)
      ensures esriPresent ==> store.log == old(store.log) + LoadDispatches(credential, results)
      ensures esriPresent && Loaded(credential, results) ==> maps == ToMapItems(credential.value, results.value)
      ensures !(esriPresent && Loaded(credential, results)) ==> maps == old(maps)
      ensures esriPresent ==> !store.loading
      ensures esriPresent && Loaded(credential, results) ==> store.availableMaps == maps
      ensures !Loaded(credential, results) ==> store.availableMaps == old(store.availableMaps)
    {
      if !esriPresent {
        return;
      }
      ghost var before := store.availableMaps;
      store.SetLoading(true);
      assert store.availableMaps == before;
      if credential.Resolved? && results.Resolved? {
        var mapItems := ToMapItems(credential.value, results.value);
        maps := mapItems;
        store.SetAvailableMaps(mapItems);
        assert store.availableMaps == maps;
      }
      // finally
      store.SetLoading(false);
    }

    /** `handleMapSelect(id)`: selects the map in the slice. */
    method HandleMapSelect(id: string)
      requires store.Valid()
      modifies store
      ensures store.Valid() && store.log == old(store.log) + [MapSlice.SetCurrentMapId(Some(id))]
      ensures store.currentMapId == Some(id)
      ensures store.State() == old(store.State()).(currentMapId := Some(id))
    {
      store.SetCurrentMapId(Some(id));
    }
  }
}
