/** The UI slice: side navigation, the right-hand drawer and the panel it
    shows, the mobile menu, the help tour and a busy flag, with its nine
    reducers. */
module UiSlice {
  import opened Common

  /** The panels the drawer can show. */
  datatype PanelKey = Maps | Layers | Legend | Bookmarks | Tools | Print | AdvancedSearch

  /** The string each key is written as. */
  function KeyId(k: PanelKey): string {
    match k
    case Maps => "maps"
    case Layers => "layers"
    case Legend => "legend"
    case Bookmarks => "bookmarks"
    case Tools => "tools"
    case Print => "print"
    case AdvancedSearch => "advanced-search"
  }

  /** Different keys are written differently, so comparing the strings
      compares the keys. */
  lemma KeyIdInjective(a: PanelKey, b: PanelKey)
    ensures KeyId(a) == KeyId(b) ==> a == b
  {
    if a != b {
      var ka, kb := KeyId(a), KeyId(b);
      assert |ka| != |kb| || ka[0] != kb[0] || ka[1] != kb[1];
    }
  }

  /** `DrawerContent`: a panel key or null. */
  type DrawerContent = Option<PanelKey>

  datatype UIState = UIState(
    sideNavOpen: bool,
    drawerOpen: bool,
    drawerContent: DrawerContent,
    mobileMenuOpen: bool,
    helpTourActive: bool,
    loading: bool)

  /** One constructor per reducer, carrying its payload. */
  datatype UIAction =
    | ToggleSideNav
    | SetSideNavOpen(open: bool)
    | OpenDrawer(content: DrawerContent)
    | CloseDrawer
    | ToggleMobileMenu
    | SetMobileMenuOpen(open: bool)
    | StartHelpTour
    | EndHelpTour
    | SetLoading(loading: bool)

  datatype UIField =
    SideNavOpenField | DrawerOpenField | DrawerContentField | MobileMenuOpenField | HelpTourActiveField | LoadingField

  /** `s` and `t` agree on field `f`. */
  predicate SameField(s: UIState, t: UIState, f: UIField) {
    match f
    case SideNavOpenField => s.sideNavOpen == t.sideNavOpen
    case DrawerOpenField => s.drawerOpen == t.drawerOpen
    case DrawerContentField => s.drawerContent == t.drawerContent
    case MobileMenuOpenField => s.mobileMenuOpen == t.mobileMenuOpen
    case HelpTourActiveField => s.helpTourActive == t.helpTourActive
    case LoadingField => s.loading == t.loading
  }

  /** The fields a reducer assigns. */
  function Writes(a: UIAction): set<UIField> {
    match a
    case ToggleSideNav => {SideNavOpenField}
    case SetSideNavOpen(_) => {SideNavOpenField}
    case OpenDrawer(_) => {DrawerOpenField, DrawerContentField}
    case CloseDrawer => {DrawerOpenField, DrawerContentField}
    case ToggleMobileMenu => {MobileMenuOpenField}
    case SetMobileMenuOpen(_) => {MobileMenuOpenField}
    case StartHelpTour => {HelpTourActiveField}
    case EndHelpTour => {HelpTourActiveField}
    case SetLoading(_) => {LoadingField}
  }

  /** A panel is selected only while the drawer is open (an open drawer may
      still have no panel). */
  predicate DrawerInvariant(s: UIState) {
    s.drawerContent.Some? ==> s.drawerOpen
  }

  /** `initialState`: navigation open, drawer closed and empty, no menu, no
      tour, idle. */
  function InitialState(): (s: UIState)
    ensures DrawerInvariant(s)
    ensures s.sideNavOpen && !s.drawerOpen && s.drawerContent == None
    ensures !s.mobileMenuOpen && !s.helpTourActive && !s.loading
  {
    UIState(true, false, None, false, false, false)
  }

  /** The slice reducer. */
  function Reduce(s: UIState, a: UIAction): (r: UIState)
    ensures forall f :: f !in Writes(a) ==> SameField(s, r, f)
    ensures DrawerInvariant(s) ==> DrawerInvariant(r)
    ensures a.ToggleSideNav? ==> r.sideNavOpen != s.sideNavOpen
    ensures a.ToggleMobileMenu? ==> r.mobileMenuOpen != s.mobileMenuOpen
    ensures a.SetSideNavOpen? ==> r.sideNavOpen == a.open
    ensures a.SetMobileMenuOpen? ==> r.mobileMenuOpen == a.open
    ensures a.SetLoading? ==> r.loading == a.loading
    ensures a.OpenDrawer? ==> r.drawerOpen && r.drawerContent == a.content
    ensures a.CloseDrawer? ==> !r.drawerOpen && r.drawerContent == None
    ensures a.StartHelpTour? ==> r.helpTourActive
    ensures a.EndHelpTour? ==> !r.helpTourActive
  {
    match a
    case ToggleSideNav => s.(sideNavOpen := !s.sideNavOpen)
    case SetSideNavOpen(b) => s.(sideNavOpen := b)
    case OpenDrawer(c) => s.(drawerOpen := true, drawerContent := c)
    case CloseDrawer => s.(drawerOpen := false, drawerContent := None)
    case ToggleMobileMenu => s.(mobileMenuOpen := !s.mobileMenuOpen)
    case SetMobileMenuOpen(b) => s.(mobileMenuOpen := b)
    case StartHelpTour => s.(helpTourActive := true)
    case EndHelpTour => s.(helpTourActive := false)
    case SetLoading(b) => s.(loading := b)
  }

  /** The state after reducing `actions` in order, starting from `s`. */
  function ReduceAll(s: UIState, actions: seq<UIAction>): UIState
    decreases |actions|
  {
    if actions == [] then s
    else Reduce(ReduceAll(s, actions[..|actions| - 1]), actions[|actions| - 1])
  }

  lemma {:induction false} ReduceAllAppend(s: UIState, xs: seq<UIAction>, ys: seq<UIAction>)
    ensures ReduceAll(s, xs + ys) == ReduceAll(ReduceAll(s, xs), ys)
    decreases |ys|
  {
    if ys == [] {
      assert xs + ys == xs;
    } else {
      assert (xs + ys)[..|xs + ys| - 1] == xs + ys[..|ys| - 1];
      ReduceAllAppend(s, xs, ys[..|ys| - 1]);
    }
  }

  /** The drawer invariant holds in every state reachable from the initial one. */
  lemma {:induction false} ReachableStatesKeepDrawerInvariant(actions: seq<UIAction>)
    ensures DrawerInvariant(ReduceAll(InitialState(), actions))
    decreases |actions|
  {
    if actions != [] {
      ReachableStatesKeepDrawerInvariant(actions[..|actions| - 1]);
    }
  }

  /** The two toggles are involutions. */
  lemma TogglesAreInvolutions(s: UIState, a: UIAction)
    requires a.ToggleSideNav? || a.ToggleMobileMenu?
    ensures Reduce(Reduce(s, a), a) == s
  {
  }

  /** Every other reducer is idempotent: `openDrawer(k)` (`openDrawer(null)`
      included), `closeDrawer`, the three setters and the tour actions. */
  lemma NonTogglesAreIdempotent(s: UIState, a: UIAction)
    requires !a.ToggleSideNav? && !a.ToggleMobileMenu?
    ensures Reduce(Reduce(s, a), a) == Reduce(s, a)
  {
  }

  /** The slice's state object, updated in place by its reducers. `log` is the
      history of actions the store has reduced. */
  class UIStore {
    var sideNavOpen: bool
    var drawerOpen: bool
    var drawerContent: DrawerContent
    var mobileMenuOpen: bool
    var helpTourActive: bool
    var loading: bool
    ghost var log: seq<UIAction>

    function State(): UIState
      reads this
    {
      UIState(sideNavOpen, drawerOpen, drawerContent, mobileMenuOpen, helpTourActive, loading)
    }

    /** The state is the fold of the history and keeps the drawer invariant. */
    ghost predicate Valid()
      reads this
    {
      && State() == ReduceAll(InitialState(), log)
      && DrawerInvariant(State())
    }

    constructor ()
      ensures Valid() && log == [] && State() == InitialState()
    {
      sideNavOpen, drawerOpen, drawerContent := true, false, None;
      mobileMenuOpen, helpTourActive, loading := false, false, false;
      log := [];
    }

    method ToggleSideNav()
      requires Valid()
      modifies this
      ensures Valid() && log == old(log) + [UIAction.ToggleSideNav]
      ensures State() == Reduce(old(State()), UIAction.ToggleSideNav)
    {
      sideNavOpen := !sideNavOpen;
      log := log + [UIAction.ToggleSideNav];
    }

    method SetSideNavOpen(b: bool)
      requires Valid()
      modifies this
      ensures Valid() && log == old(log) + [UIAction.SetSideNavOpen(b)]
      ensures State() == Reduce(old(State()), UIAction.SetSideNavOpen(b))
    {
      sideNavOpen := b;
      log := log + [UIAction.SetSideNavOpen(b)];
    }

    method OpenDrawer(c: DrawerContent)
      requires Valid()
      modifies this
      ensures Valid() && log == old(log) + [UIAction.OpenDrawer(c)]
      ensures State() == Reduce(old(State()), UIAction.OpenDrawer(c))
    {
      drawerOpen := true;
      drawerContent := c;
      log := log + [UIAction.OpenDrawer(c)];
    }

    method CloseDrawer()
      requires Valid()
      modifies this
      ensures Valid() && log == old(log) + [UIAction.CloseDrawer]
      ensures State() == Reduce(old(State()), UIAction.CloseDrawer)
    {
      drawerOpen := false;
      drawerContent := None;
      log := log + [UIAction.CloseDrawer];
    }

    method ToggleMobileMenu()
      requires Valid()
      modifies this
      ensures Valid() && log == old(log) + [UIAction.ToggleMobileMenu]
      ensures State() == Reduce(old(State()), UIAction.ToggleMobileMenu)
    {
      mobileMenuOpen := !mobileMenuOpen;
      log := log + [UIAction.ToggleMobileMenu];
    }

    method SetMobileMenuOpen(b: bool)
      requires Valid()
      modifies this
      ensures Valid() && log == old(log) + [UIAction.SetMobileMenuOpen(b)]
      ensures State() == Reduce(old(State()), UIAction.SetMobileMenuOpen(b))
    {
      mobileMenuOpen := b;
      log := log + [UIAction.SetMobileMenuOpen(b)];
    }

    method StartHelpTour()
      requires Valid()
      modifies this
      ensures Valid() && log == old(log) + [UIAction.StartHelpTour]
      ensures State() == Reduce(old(State()), UIAction.StartHelpTour)
    {
      helpTourActive := true;
      log := log + [UIAction.StartHelpTour];
    }

    method EndHelpTour()
      requires Valid()
      modifies this
      ensures Valid() && log == old(log) + [UIAction.EndHelpTour]
      ensures State() == Reduce(old(State()), UIAction.EndHelpTour)
    {
      helpTourActive := false;
      log := log + [UIAction.EndHelpTour];
    }

    method SetLoading(b: bool)
      requires Valid()
      modifies this
      ensures Valid() && log == old(log) + [UIAction.SetLoading(b)]
      ensures State() == Reduce(old(State()), UIAction.SetLoading(b))
    {
      loading := b;
      log := log + [UIAction.SetLoading(b)];
    }
  }
}
