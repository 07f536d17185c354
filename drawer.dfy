/** The right-hand drawer: three switches from the drawer content to the
    panel shown, the heading and the header icon, and the close action. */
module Drawer {
  import opened Common
  import opened UiSlice

  /** What the drawer body shows: one panel per key, or the placeholder
      inviting a choice from the navigation. */
  datatype Panel =
    | MapsPanel | LayersPanel | LegendPanel | BookmarksPanel | ToolsPanel | PrintPanel | AdvancedSearchPanel
    | Placeholder

  const PlaceholderTitle := "Panel"
  const PlaceholderIcon := "panel"

  /** `renderContent()`. */
  function RenderContent(content: DrawerContent): (p: Panel)
    ensures content.None? <==> p == Placeholder
  {
    match content
    case None => Placeholder
    case Some(k) =>
      match k
      case Maps => MapsPanel
      case Layers => LayersPanel
      case Legend => LegendPanel
      case Bookmarks => BookmarksPanel
      case Tools => ToolsPanel
      case Print => PrintPanel
      case AdvancedSearch => AdvancedSearchPanel
  }

  /** `getTitle()`. */
  function Title(content: DrawerContent): (t: string)
    ensures content.None? <==> t == PlaceholderTitle
  {
    match content
    case None => PlaceholderTitle
    case Some(k) =>
      match k
      case Maps => "Maps"
      case Layers => "Layers"
      case Legend => "Legend"
      case Bookmarks => "Bookmarks"
      case Tools => "Tools"
      case Print => "Print"
      case AdvancedSearch => "Advanced Search"
  }

  /** `getIcon()`. */
  function Icon(content: DrawerContent): (i: string)
    ensures content.None? <==> i == PlaceholderIcon
  {
    match content
    case None => PlaceholderIcon
    case Some(k) =>
      match k
      case Maps => "map"
      case Layers => "layers"
      case Legend => "legend"
      case Bookmarks => "bookmark"
      case Tools => "apps"
      case Print => "print"
      case AdvancedSearch => "search"
  }

  /** Different keys get different panels, headings and icons. */
  lemma {:induction false} KeysAreDistinguished(a: PanelKey, b: PanelKey)
    requires a != b
    ensures RenderContent(Some(a)) != RenderContent(Some(b))
    ensures Title(Some(a)) != Title(Some(b))
    ensures Icon(Some(a)) != Icon(Some(b))
  {
    var ta, tb := Title(Some(a)), Title(Some(b));
    assert |ta| != |tb| || ta[0] != tb[0] || ta[1] != tb[1];
    var ia, ib := Icon(Some(a)), Icon(Some(b));
    assert |ia| != |ib| || ia[0] != ib[0] || ia[1] != ib[1];
  }

  /** The three switches agree: the body shows a real panel exactly when the
      heading and the icon are not the placeholder ones. */
  lemma SwitchesAgree(content: DrawerContent)
    ensures RenderContent(content) != Placeholder <==> Title(content) != PlaceholderTitle
    ensures Title(content) != PlaceholderTitle <==> Icon(content) != PlaceholderIcon
  {
  }

  /** `handleClose()`: dispatches `closeDrawer` and nothing else; afterwards
      the drawer would show the placeholder. */
  method HandleClose(ui: UIStore)
    requires ui.Valid()
    modifies ui
    ensures ui.Valid() && ui.log == old(ui.log) + [UIAction.CloseDrawer]
    ensures ui.State() == old(ui.State()).(drawerOpen := false, drawerContent := None)
    ensures RenderContent(ui.drawerContent) == Placeholder && Title(ui.drawerContent) == PlaceholderTitle
  {
    ui.CloseDrawer();
  }
}
