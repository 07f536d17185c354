/** The `useMap` hook: a map view owned through a reference, created by
    `initializeMap`, torn down before a new one is created, re-created by
    `retry` and destroyed on unmount. Views are identified by handles drawn
    from a counter (standing for SDK object identity); `live` is the set of
    views created and not yet successfully destroyed. Whether the container
    element is mounted, whether `destroy()` throws and how the SDK
    construction calls settle are inputs. */
module UseMap {
  import opened Common

  const FallbackMessage := "Failed to load map"

  /** The message stored for a caught exception. */
  function FailureMessage(t: Thrown): (m: string)
    ensures t.ErrorValue? ==> m == t.message
    ensures t.NonErrorValue? ==> m == FallbackMessage
  {
    match t
    case ErrorValue(message) => message
    case NonErrorValue => FallbackMessage
  }

  datatype HookState = HookState(
    view: Option<nat>,
    isLoading: bool,
    error: Option<string>,
    mapInitialized: bool,
    nextHandle: nat,
    live: set<nat>)

  function InitialState(): (s: HookState)
    ensures s.view == None && !s.isLoading && s.error == None && !s.mapInitialized && s.live == {}
  {
    HookState(None, false, None, false, 0, {})
  }

  /** The views the reference holds: none or one. */
  function Held(view: Option<nat>): set<nat> {
    if view.Some? then {view.value} else {}
  }

  /** The held view and every live view were drawn from the counter. */
  predicate HandlesIssued(s: HookState) {
    && (s.view.Some? ==> s.view.value < s.nextHandle)
    && (forall h :: h in s.live ==> h < s.nextHandle)
  }

  /** The hook owns exactly the view its reference holds, so at most one view
      is live; every handle in use was drawn from the counter. */
  predicate OwnsOnlyItsView(s: HookState) {
    s.live == Held(s.view) && HandlesIssued(s)
  }

  /** The guard at the top of `initializeMap`. */
  predicate Skips(s: HookState, hasContainer: bool) {
    !hasContainer || s.mapInitialized
  }

  /** `initializeMap` up to `await view.when()`: the guard, the busy flag and
      cleared error, the teardown of any previous view (whose failure is
      swallowed and leaves the reference in place), then the basemap and view
      construction; a throw there ends in the catch block. */
  function Start(s: HookState, hasContainer: bool, destroyOk: bool, construct: Outcome<()>): (r: HookState)
    ensures Skips(s, hasContainer) ==> r == s
    ensures !Skips(s, hasContainer) ==> r.mapInitialized == s.mapInitialized && r.nextHandle >= s.nextHandle
    ensures !Skips(s, hasContainer) && construct.Resolved? ==>
      && r.isLoading && r.error == None
      && r.view == Some(s.nextHandle) && r.nextHandle == s.nextHandle + 1
    ensures !Skips(s, hasContainer) && construct.Rejected? ==>
      && !r.isLoading && r.error == Some(FailureMessage(construct.reason))
      && r.view == (if destroyOk then None else s.view)
    ensures !Skips(s, hasContainer) ==>
      r.live == s.live - (if destroyOk then Held(s.view) else {}) + (if construct.Resolved? then {s.nextHandle} else {})
    ensures HandlesIssued(s) && !Skips(s, hasContainer) && s.view.Some? && destroyOk ==> s.view.value !in r.live
    ensures HandlesIssued(s) ==> HandlesIssued(r)
    ensures OwnsOnlyItsView(s) && (destroyOk || Skips(s, hasContainer)) ==> OwnsOnlyItsView(r)
  {
    if Skips(s, hasContainer) then s
    else
      var entered := s.(isLoading := true, error := None);
      var torn :=
        if entered.view.Some? && destroyOk
        then entered.(view := None, live := entered.live - {entered.view.value})
        else entered;
      match construct
      case Rejected(t) => torn.(error := Some(FailureMessage(t)), isLoading := false)
      case Resolved(_) =>
        torn.(view := Some(s.nextHandle), live := torn.live + {s.nextHandle}, nextHandle := s.nextHandle + 1)
  }

  /** `initializeMap` after `await view.when()`: `ready` is how the wait and
      the widget construction settle. The view reference is not touched. */
  function Complete(s: HookState, ready: Outcome<()>): (r: HookState)
    ensures r.view == s.view && r.live == s.live && r.nextHandle == s.nextHandle && !r.isLoading
    ensures ready.Resolved? ==> r.mapInitialized && r.error == s.error
    ensures ready.Rejected? ==> r.mapInitialized == s.mapInitialized && r.error == Some(FailureMessage(ready.reason))
  {
    match ready
    case Resolved(_) => s.(isLoading := false, mapInitialized := true)
    case Rejected(t) => s.(error := Some(FailureMessage(t)), isLoading := false)
  }

  /** `retry`: clears the error and the initialised flag, then initialises
      again; only a missing container skips the initialisation. */
  function Retried(s: HookState, hasContainer: bool, destroyOk: bool, construct: Outcome<()>): (r: HookState)
    ensures !hasContainer ==> r == s.(error := None, mapInitialized := false)
    ensures hasContainer ==> !r.mapInitialized
    ensures hasContainer && construct.Resolved? ==>
      r.isLoading && r.error == None && r.view == Some(s.nextHandle)
    ensures hasContainer && construct.Rejected? ==> r.error == Some(FailureMessage(construct.reason))
    ensures OwnsOnlyItsView(s) && (destroyOk || !hasContainer) ==> OwnsOnlyItsView(r)
  {
    Start(s.(error := None, mapInitialized := false), hasContainer, destroyOk, construct)
  }

  /** The effect cleanup run on unmount. */
  function TornDown(s: HookState, destroyOk: bool): (r: HookState)
    ensures destroyOk ==> r.view == None && Held(s.view) !! r.live
    ensures destroyOk ==> r.live == s.live - Held(s.view)
    ensures !destroyOk ==> r == s
    ensures r.isLoading == s.isLoading && r.error == s.error && r.mapInitialized == s.mapInitialized
    ensures OwnsOnlyItsView(s) && destroyOk ==> OwnsOnlyItsView(r) && r.live == {}
  {
    if s.view.Some? && destroyOk then s.(view := None, live := s.live - {s.view.value})
    else s
  }

  /** What can happen to the hook. */
  datatype HookEvent =
    | Initialize(hasContainer: bool, destroyOk: bool, construct: Outcome<()>)
    | Settle(ready: Outcome<()>)
    | RetryPressed(hasContainer: bool, destroyOk: bool, construct: Outcome<()>)
    | Unmounted(destroyOk: bool)

  predicate DestroySucceeds(e: HookEvent) {
    !e.Settle? ==> e.destroyOk
  }

  /** One event applied to the hook. The counter never goes back, so a
      handle once issued is never issued again; a step whose `destroy()`
      succeeds keeps the hook owning only its view. */
  function Step(s: HookState, e: HookEvent): (r: HookState)
    ensures r.nextHandle >= s.nextHandle
    ensures HandlesIssued(s) ==> HandlesIssued(r)
    ensures OwnsOnlyItsView(s) && DestroySucceeds(e) ==> OwnsOnlyItsView(r)
  {
    match e
    case Initialize(c, d, k) => Start(s, c, d, k)
    case Settle(ready) => Complete(s, ready)
    case RetryPressed(c, d, k) => Retried(s, c, d, k)
    case Unmounted(d) => TornDown(s, d)
  }

  /** The hook after `events`, in order, starting from `s`: the counter only
      grows and every handle in use stays one the counter has issued. */
  function Run(s: HookState, events: seq<HookEvent>): (r: HookState)
    ensures r.nextHandle >= s.nextHandle
    ensures HandlesIssued(s) ==> HandlesIssued(r)
    decreases |events|
  {
    if events == [] then s
    else Step(Run(s, events[..|events| - 1]), events[|events| - 1])
  }

  /** As long as no `destroy()` throws, the hook owns at most one live view
      in every reachable state, whatever the order of initialisations,
      settlements, retries and unmounts. */
  lemma {:induction false} AtMostOneLiveView(events: seq<HookEvent>)
    requires forall i :: 0 <= i < |events| ==> DestroySucceeds(events[i])
    ensures OwnsOnlyItsView(Run(InitialState(), events))
    ensures |Run(InitialState(), events).live| <= 1
    decreases |events|
  {
    if events != [] {
      AtMostOneLiveView(events[..|events| - 1]);
    }
    var r := Run(InitialState(), events);
    if r.view.Some? {
      assert r.live == {r.view.value};
    }
  }

  /** A `destroy()` that throws during the teardown leaks the old view: the
      reference is overwritten by the new one and both stay live. */
  lemma FailedTeardownLeaks()
    ensures var ok := Resolved(());
            |Run(InitialState(), [Initialize(true, true, ok), RetryPressed(true, false, ok)]).live| == 2
  {
    var ok := Resolved(());
    var events := [Initialize(true, true, ok), RetryPressed(true, false, ok)];
    assert events[..1] == [Initialize(true, true, ok)] && events[..1][..0] == [];
    assert Run(InitialState(), events[..1]) == Step(InitialState(), events[0]);
    var first := Run(InitialState(), events[..1]);
    assert first.live == {0} && first.view == Some(0);
    assert Run(InitialState(), events).live == {0, 1};
  }

  /** The hook's refs and state variables, updated in place. */
  class MapHook {
    var view: Option<nat>
    var isLoading: bool
    var error: Option<string>
    var mapInitialized: bool
    var nextHandle: nat
    ghost var live: set<nat>

    ghost function State(): HookState
      reads this
    {
      HookState(view, isLoading, error, mapInitialized, nextHandle, live)
    }

    constructor ()
      ensures State() == InitialState()
    {
      view, isLoading, error, mapInitialized, nextHandle := None, false, None, false, 0;
      live := {};
    }

    /** `initializeMap` up to the await. `pending` is the new view, when one
        was created; it is what the rest of the call waits on. */
    method InitializeMap(hasContainer: bool, destroyOk: bool, construct: Outcome<()>) returns (pending: Option<nat>)
      modifies this
      ensures State() == Start(old(State()), hasContainer, destroyOk, construct)
      ensures pending == (if Skips(old(State()), hasContainer) || construct.Rejected? then None else view)
    {
      pending := None;
      if !hasContainer || mapInitialized {
        return;
      }
      isLoading := true;
      error := None;
      if view.Some? && destroyOk {
        live := live - {view.value};
        view := None;
      }
      if construct.Rejected? {
        error := Some(FailureMessage(construct.reason));
        isLoading := false;
        return;
      }
      var created := nextHandle;
      nextHandle := nextHandle + 1;
      live := live + {created};
      view := Some(created);
      pending := view;
    }

    /** `initializeMap` after the await: the widgets are added on success;
        either way the busy flag is lowered. */
    method FinishInitializeMap(ready: Outcome<()>)
      modifies this
      ensures State() == Complete(old(State()), ready)
    {
      if ready.Resolved? {
        isLoading := false;
        mapInitialized := true;
      } else {
        error := Some(FailureMessage(ready.reason));
        isLoading := false;
      }
    }

    method Retry(hasContainer: bool, destroyOk: bool, construct: Outcome<()>) returns (pending: Option<nat>)
      modifies this
      ensures State() == Retried(old(State()), hasContainer, destroyOk, construct)
    {
      error := None;
      mapInitialized := false;
      pending := InitializeMap(hasContainer, destroyOk, construct);
    }

    method Unmount(destroyOk: bool)
      modifies this
      ensures State() == TornDown(old(State()), destroyOk)
    {
      if view.Some? && destroyOk {
        live := live - {view.value};
        view := None;
      }
    }
  }
}
