/** The side navigation: seven menu items, one per drawer panel, and a help
    item; choosing an item opens the drawer on its panel, choosing help starts
    the tour, and the item whose panel is shown is highlighted. */
module SideNav {
  import opened Common
  import opened UiSlice
  import Drawer

  /** A menu item; its `id` is the key's string. */
  datatype NavItem = NavItem(key: PanelKey, icon: string, text: string)

  function ItemId(item: NavItem): string {
    KeyId(item.key)
  }

  /** `navigationItems`, in menu order. */
  function NavigationItems(): (items: seq<NavItem>)
    ensures |items| == 7
  {
    [
      NavItem(AdvancedSearch, "search", "Advanced Search"),
      NavItem(Maps, "map", "Maps"),
      NavItem(Layers, "layers", "Layers"),
      NavItem(Legend, "legend", "Legend"),
      NavItem(Bookmarks, "bookmark", "Bookmarks"),
      NavItem(Tools, "apps", "Tools"),
      NavItem(Print, "print", "Print")
    ]
  }

  /** The items' keys, in menu order. */
  function MenuKeys(): (ks: seq<PanelKey>)
    ensures |ks| == 7 && forall i :: 0 <= i < 7 ==> ks[i] == NavigationItems()[i].key
  {
    seq(7, i requires 0 <= i < 7 => NavigationItems()[i].key)
  }

  /** The seven items are exactly the seven drawer keys, each once. */
  lemma ItemsCoverEveryKeyOnce()
    ensures forall k: PanelKey :: k in MenuKeys()
    ensures forall i, j :: 0 <= i < j < 7 ==> MenuKeys()[i] != MenuKeys()[j]
  {
    var ks := MenuKeys();
    forall k: PanelKey
      ensures k in ks
    {
      match k
      case AdvancedSearch => assert ks[0] == k;
      case Maps => assert ks[1] == k;
      case Layers => assert ks[2] == k;
      case Legend => assert ks[3] == k;
      case Bookmarks => assert ks[4] == k;
      case Tools => assert ks[5] == k;
      case Print => assert ks[6] == k;
    }
  }

  /** Each item's label and icon are the heading and icon the drawer shows
      for its panel. */
  lemma ItemsMatchDrawer()
    ensures forall i :: 0 <= i < 7 ==>
      && Drawer.Title(Some(NavigationItems()[i].key)) == NavigationItems()[i].text
      && Drawer.Icon(Some(NavigationItems()[i].key)) == NavigationItems()[i].icon
  {
  }

  /** What `handleNavigation` is called with: an item or the help entry. */
  datatype NavTarget = Help | Item(key: PanelKey)

  /** `handleNavigation(id)`: the action dispatched. */
  function Navigation(target: NavTarget): (a: UIAction)
    ensures target.Help? <==> a == StartHelpTour
    ensures target.Item? ==> a == OpenDrawer(Some(target.key))
    ensures !a.OpenDrawer? || a.content.Some?
  {
    match target
    case Help => StartHelpTour
    case Item(k) => OpenDrawer(Some(k))
  }

  /** `active={drawerContent === item.id}`: the drawer's content, written as
      a string, is the item's id. Since ids are distinct this is the item's
      own key being shown. */
  function Active(item: NavItem, drawerContent: DrawerContent): (b: bool)
    ensures b <==> drawerContent == Some(item.key)
  {
    if drawerContent.Some? then
      (if KeyId(drawerContent.value) == ItemId(item) then KeyIdInjective(drawerContent.value, item.key); true
       else false)
    else false
  }

  /** Help never touches the drawer; any item opens the drawer on its own
      panel, which then is the only highlighted item. */
  lemma {:induction false} NavigationEffect(s: UIState, target: NavTarget)
    ensures var r := Reduce(s, Navigation(target));
      && (target.Help? ==> r.drawerOpen == s.drawerOpen && r.drawerContent == s.drawerContent && r.helpTourActive)
      && (target.Item? ==> r.drawerOpen && forall i :: 0 <= i < 7 ==>
            (Active(NavigationItems()[i], r.drawerContent) <==> NavigationItems()[i].key == target.key))
  {
    ItemsCoverEveryKeyOnce();
  }

  /** Since the keys are distinct, at most one item is highlighted. */
  lemma AtMostOneActive(drawerContent: DrawerContent, i: nat, j: nat)
    requires i < 7 && j < 7
    requires Active(NavigationItems()[i], drawerContent) && Active(NavigationItems()[j], drawerContent)
    ensures i == j
  {
    ItemsCoverEveryKeyOnce();
  }

  /** Dispatches the navigation action to the store. */
  method HandleNavigation(ui: UIStore, target: NavTarget)
    requires ui.Valid()
    modifies ui
    ensures ui.Valid() && ui.log == old(ui.log) + [Navigation(target)]
    ensures ui.State() == Reduce(old(ui.State()), Navigation(target))
  {
    match target
    case Help => ui.StartHelpTour();
    case Item(k) => ui.OpenDrawer(Some(k));
  }
}
