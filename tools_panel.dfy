/** The tools panel: a constant table of twelve tools in four categories, a
    category selector (`"all"` or one category id), the filtered list and the
    per-category groups shown in the accordion, the launch guard and the
    status chip and button labels. */
module ToolsPanel {
  import opened Common

  datatype Category = Measurement | Drawing | Analysis | Navigation

  datatype Status = Available | Beta | ComingSoon

  datatype Tool = Tool(
    id: string,
    icon: string,
    title: string,
    description: string,
    category: Category,
    status: Status,
    shortcut: Option<string>)

  /** The string a category is written as in the tables. */
  function CategoryId(c: Category): string {
    match c
    case Measurement => "measurement"
    case Drawing => "drawing"
    case Analysis => "analysis"
    case Navigation => "navigation"
  }

  /** The value of `activeCategory`: "all" or one category's id. The selector
      only ever sets one of these five values. */
  datatype Selection = All | Only(category: Category)

  /** The string a selection is written as. */
  function SelectionId(sel: Selection): string {
    match sel
    case All => "all"
    case Only(c) => CategoryId(c)
  }

  /** The four categories in declared order. */
  function AllCategories(): seq<Category> {
    [Measurement, Drawing, Analysis, Navigation]
  }

  /** The tool table. */
  function Tools(): (ts: seq<Tool>)
    ensures |ts| == 12
  {
    [
      Tool("measure-distance", "measure", "Measure Distance", "Measure distances between points on the map",
           Measurement, Available, Some("M")),
      Tool("measure-area", "polygon", "Measure Area", "Calculate areas of polygons and regions",
           Measurement, Available, Some("A")),
      Tool("elevation-profile", "line-chart", "Elevation Profile", "View elevation changes along a path",
           Measurement, Beta, None),
      Tool("draw-point", "point", "Draw Points", "Add point markers to the map",
           Drawing, Available, Some("P")),
      Tool("draw-line", "line", "Draw Lines", "Draw lines and polylines on the map",
           Drawing, Available, Some("L")),
      Tool("draw-polygon", "polygon", "Draw Polygons", "Create polygon shapes and areas",
           Drawing, Available, None),
      Tool("text-annotation", "text", "Text Annotation", "Add text labels and annotations",
           Drawing, Available, None),
      Tool("buffer", "buffer", "Buffer Analysis", "Create buffer zones around features",
           Analysis, Available, None),
      Tool("viewshed", "viewshed", "Viewshed Analysis", "Calculate visible areas from a point",
           Analysis, Beta, None),
      Tool("watershed", "watershed", "Watershed Analysis", "Delineate watershed boundaries",
           Analysis, ComingSoon, None),
      Tool("coordinate-finder", "pin-tear", "Coordinate Finder", "Find and display coordinates",
           Navigation, Available, None),
      Tool("goto-coordinates", "navigation", "Go to Coordinates", "Navigate to specific coordinates",
           Navigation, Available, None)
    ]
  }

  /** An entry of the category selector (its `label` is `caption` here). */
  datatype CategoryEntry = CategoryEntry(selection: Selection, caption: string, icon: string)

  /** The selector's entries: "all" first, then the four categories in declared order. */
  function Categories(): (cs: seq<CategoryEntry>)
    ensures |cs| == 5 && cs[0].selection == All
    ensures forall i :: 1 <= i < 5 ==> cs[i].selection == Only(AllCategories()[i - 1])
  {
    [
      CategoryEntry(All, "All Tools", "apps"),
      CategoryEntry(Only(Measurement), "Measurement", "measure"),
      CategoryEntry(Only(Drawing), "Drawing", "pencil"),
      CategoryEntry(Only(Analysis), "Analysis", "analysis"),
      CategoryEntry(Only(Navigation), "Navigation", "navigation")
    ]
  }

  /** The tools of category `c`, in their original order. */
  function OfCategory(ts: seq<Tool>, c: Category): (r: seq<Tool>)
    ensures |r| <= |ts|
    ensures forall i :: 0 <= i < |r| ==> r[i].category == c
    decreases |ts|
  {
    if ts == [] then []
    else (if ts[0].category == c then [ts[0]] else []) + OfCategory(ts[1..], c)
  }

  /** The filter keeps exactly the tools of the category. */
  lemma {:induction false} OfCategoryMembers(ts: seq<Tool>, c: Category, t: Tool)
    ensures t in OfCategory(ts, c) <==> t in ts && t.category == c
    decreases |ts|
  {
    if ts != [] {
      OfCategoryMembers(ts[1..], c, t);
      assert ts == [ts[0]] + ts[1..];
    }
  }

  /** The filter is a homomorphism of concatenation; with the one-element
      case this fixes the result's order to the original order. */
  lemma {:induction false} OfCategoryAppend(xs: seq<Tool>, ys: seq<Tool>, c: Category)
    ensures OfCategory(xs + ys, c) == OfCategory(xs, c) + OfCategory(ys, c)
    decreases |xs|
  {
    if xs == [] {
      assert xs + ys == ys;
    } else {
      assert (xs + ys)[0] == xs[0] && (xs + ys)[1..] == xs[1..] + ys;
      OfCategoryAppend(xs[1..], ys, c);
    }
  }

  /** `filteredTools` over the tool list `ts`: every tool for "all",
      otherwise the selected category's. */
  function FilteredTools(ts: seq<Tool>, activeCategory: Selection): (r: seq<Tool>)
    ensures activeCategory == All ==> r == ts
    ensures activeCategory.Only? ==> r == OfCategory(ts, activeCategory.category)
  {
    match activeCategory
    case All => ts
    case Only(c) => OfCategory(ts, c)
  }

  /** A selector entry with its tools and their number. */
  datatype CategoryGroup = CategoryGroup(entry: CategoryEntry, tools: seq<Tool>, count: nat)

  /** The group of a category entry: the tools the entry selects. */
  function GroupOf(ts: seq<Tool>, entry: CategoryEntry): (g: CategoryGroup)
    ensures g.entry == entry && g.tools == FilteredTools(ts, entry.selection) && g.count == |g.tools|
  {
    var selected := FilteredTools(ts, entry.selection);
    CategoryGroup(entry, selected, |selected|)
  }

  /** `toolsByCategory` over the tool list `ts`: one group per entry after
      "all", in declared order. */
  function ToolsByCategory(ts: seq<Tool>): (r: seq<CategoryGroup>)
    ensures |r| == 4
    ensures forall i :: 0 <= i < 4 ==> r[i].entry == Categories()[i + 1]
    ensures forall i :: 0 <= i < 4 ==> r[i].tools == OfCategory(ts, AllCategories()[i]) && r[i].count == |r[i].tools|
  {
    var cs := Categories();
    [GroupOf(ts, cs[1]), GroupOf(ts, cs[2]), GroupOf(ts, cs[3]), GroupOf(ts, cs[4])]
  }

  /** Every tool belongs to exactly one of the four categories, so the four
      filters split any tool list. */
  lemma {:induction false} CategoriesPartition(ts: seq<Tool>)
    ensures |OfCategory(ts, Measurement)| + |OfCategory(ts, Drawing)|
          + |OfCategory(ts, Analysis)| + |OfCategory(ts, Navigation)| == |ts|
    decreases |ts|
  {
    if ts != [] {
      CategoriesPartition(ts[1..]);
    }
  }

  /** The accordion's counts add up to the number of tools. */
  lemma GroupCountsSumToTotal(ts: seq<Tool>)
    ensures var g := ToolsByCategory(ts);
            g[0].count + g[1].count + g[2].count + g[3].count == |ts|
  {
    CategoriesPartition(ts);
  }

  /** The count on a selector button (the length of the list it selects) is
      its group's count. */
  lemma ButtonCountsMatchGroups(ts: seq<Tool>, i: nat)
    requires 1 <= i < 5
    ensures ToolsByCategory(ts)[i - 1].count == |FilteredTools(ts, Categories()[i].selection)|
  {
  }

  /** Tool ids are pairwise distinct, so they are usable as list keys. */
  lemma ToolIdsDistinct()
    ensures forall i, j :: 0 <= i < j < |Tools()| ==> Tools()[i].id != Tools()[j].id
  {
    var ts := Tools();
    forall i, j | 0 <= i < j < |ts|
      ensures ts[i].id != ts[j].id
    {
      assert ts[i].id[..2] != ts[j].id[..2] || |ts[i].id| != |ts[j].id| || ts[i].id != ts[j].id;
    }
  }

  /** `handleToolLaunch(tool)`: the branch of the category switch taken, or
      none when the tool is not available yet. */
  function Launch(tool: Tool): (r: Option<Category>)
    ensures r.None? <==> tool.status == ComingSoon
    ensures r.Some? ==> r.value == tool.category
  {
    if tool.status == ComingSoon then None else Some(tool.category)
  }

  /** The status chip: its colour and text. */
  datatype Chip = Chip(color: string, text: string)

  function StatusChip(s: Status): (c: Chip)
    ensures s == Available ==> c == Chip("green", "Ready")
    ensures s == Beta ==> c == Chip("yellow", "Beta")
    ensures s == ComingSoon ==> c == Chip("gray", "Soon")
  {
    match s
    case Available => Chip("green", "Ready")
    case Beta => Chip("yellow", "Beta")
    case ComingSoon => Chip("gray", "Soon")
  }

  /** The chip text tells the three statuses apart. */
  lemma StatusChipInjective(s: Status, t: Status)
    requires StatusChip(s).text == StatusChip(t).text
    ensures s == t
  {
  }

  /** A tool's list item and launch button. */
  datatype ToolRow = ToolRow(disabled: bool, buttonIcon: string, buttonLabel: string)

  function RowOf(tool: Tool): (r: ToolRow)
    ensures r.disabled <==> tool.status == ComingSoon
    ensures r.buttonLabel == (if r.disabled then "Soon" else "Launch")
    ensures r.buttonIcon == (if r.disabled then "clock" else "play")
  {
    if tool.status == ComingSoon then ToolRow(true, "clock", "Soon") else ToolRow(false, "play", "Launch")
  }

  /** A row can be clicked exactly when launching it does something. */
  lemma EnabledRowsLaunch(tool: Tool)
    ensures !RowOf(tool).disabled <==> Launch(tool).Some?
  {
  }
}
