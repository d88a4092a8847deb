/** The root component `App` (`main.ts`): which tool or category the
    information panel shows, the totals in the header, and the glue between
    the search bar, the chart and the panel.  Timers and HTTP are replaced by
    their outcome: a callback runs as if it fired at once, and a request is a
    parameter holding its answer. */
module App {
  import opened Js
  import opened Api
  import Server
  import Seqs
  import SunburstChart
  import ToolInfoDisplay

  /** What the sunburst request delivered: the tree, or an error. */
  datatype Loaded = Loaded(data: SunburstData) | LoadFailed

  /** The `reduce` in `loadSunburstData`: the tools of all categories, summed
      from the first category on. */
  function ToolTotal(children: seq<SunburstCategory>): nat
    decreases |children|
  {
    if children == [] then 0
    else ToolTotal(children[..|children| - 1]) + |children[|children| - 1].children|
  }

  /** Categories that list as many tools as the store's categories add up to as many tools. */
  lemma {:induction false} ToolTotalPointwise(xs: seq<SunburstCategory>, cats: seq<Server.Category>)
    requires |xs| == |cats|
    requires forall i :: 0 <= i < |xs| ==> |xs[i].children| == |cats[i].tools|
    ensures ToolTotal(xs) == Server.TotalTools(cats)
    decreases |xs|
  {
    if xs != [] {
      var n := |xs| - 1;
      ToolTotalPointwise(xs[..n], cats[..n]);
    }
  }

  /** The header counts what the server serves: for the tree `/api/sunburst`
      builds, the tool total is the store's tool count. */
  lemma ToolTotalOfRoute(cats: seq<Server.Category>)
    ensures ToolTotal(Server.SunburstRoute(cats).children) == Server.TotalTools(cats)
    ensures |Server.SunburstRoute(cats).children| == |cats|
  {
    ToolTotalPointwise(Server.SunburstRoute(cats).children, cats);
  }

  /** The panel entry `onSearchResult` builds for a tool result: the missing
      category becomes 'Unknown', the missing colour the default blue, and the
      popularity a fixed 85. */
  function SearchedTool(result: SearchResult): (t: ToolInfoDisplay.ToolInfo)
    ensures t.name == result.name && t.description == result.description && t.url == result.url
    ensures t.category == (if Truthy(result.category) then result.category.value else "Unknown")
    ensures t.categoryColor == (if Truthy(result.categoryColor) then result.categoryColor.value else "#3b82f6")
    ensures t.popularity == 85 && t.demoVideo.None?
  {
    ToolInfoDisplay.ToolInfo(result.name, result.description, result.url,
      OrElse(result.category, "Unknown"), OrElse(result.categoryColor, "#3b82f6"), 85, None)
  }

  /** The chart holds a tool of that name (compared lower-cased). */
  predicate ChartFinds(chart: SunburstChart.Chart?, toolName: string) {
    chart != null && Seqs.FirstIndex(chart.nodes, SunburstChart.IsToolNamed(toolName)).Some?
  }

  /** The smallest chart with a tool: the root, one category "c" and, in it,
      one tool "a", each band one unit deep. */
  function OneToolTree(): seq<SunburstChart.Node> {
    var full := 2.0 * SunburstChart.PI;
    [ SunburstChart.Node(SunburstChart.Arc(0.0, full, 0.0, 1.0), 0, None, "AI Tools", "", None, None, 1.0),
      SunburstChart.Node(SunburstChart.Arc(0.0, full, 1.0, 2.0), 1, Some(0), "C", "c", None, None, 1.0),
      SunburstChart.Node(SunburstChart.Arc(0.0, full, 2.0, 3.0), 2, Some(1), "a", "a", None, Some(50), 1.0) ]
  }

  /** That chart is a valid partition. */
  lemma OneToolTreeIsPartition()
    ensures SunburstChart.Partition(OneToolTree())
  {
    var ns := OneToolTree();
    var full := 2.0 * SunburstChart.PI;
    assert |ns| == 3;
    forall i | 0 <= i < 3
      ensures 0.0 <= ns[i].layout.x0 < ns[i].layout.x1 <= full
      ensures 0.0 <= ns[i].layout.y0 <= ns[i].layout.y1
      ensures ns[i].depth == i
      ensures ns[i].value == 1.0
      ensures i > 0 ==> ns[i].parent == Some(i - 1)
    {
    }
  }

  /** A search for "A" finds the tool of that chart. */
  lemma OneToolTreeFindsTool()
    ensures Seqs.FirstIndex(OneToolTree(), SunburstChart.IsToolNamed("A")) == Some(2)
  {
    var ns := OneToolTree();
    var p := SunburstChart.IsToolNamed("A");
    assert Lower("A") == "a" == Lower("a");
    assert !p(ns[0]) && !p(ns[1]) && p(ns[2]);
    assert ns[1..][1..] == [ns[2]];
    assert Seqs.FirstIndex([ns[2]], p) == Some(0);
  }

  /** A search result that asks for a tool. */
  predicate IsToolRequest(result: SearchResult) {
    result.kind == ToolType && result.name != ""
  }

  /** A chart drawn from that tree, and a tool result named "A", are an input
      on which `OnSearchResult` leaves both a category and a tool selected. */
  lemma OneToolSearchSelectsBoth(chart: SunburstChart.Chart, result: SearchResult)
    requires chart.nodes == OneToolTree() && result.kind == ToolType && result.name == "A"
    ensures IsToolRequest(result) && ChartFinds(chart, result.name)
  {
    OneToolTreeFindsTool();
  }

  /** How `shareTool` shares: through the browser's share sheet when there is
      one, else as text on the clipboard. */
  datatype Share = NativeShare(title: string, text: string, url: string) | Clipboard(text: string)

  /** `shareTool(toolData)` */
  function ShareTool(tool: ToolInfoDisplay.ToolInfo, canShare: bool): (s: Share)
    ensures canShare <==> s.NativeShare?
    ensures s.NativeShare? ==>
              s.title == tool.name && s.text == "Check out " + tool.name + ": " + tool.description
              && s.url == OrElse(tool.url, "")
    ensures s.Clipboard? ==>
              s.text == "Check out " + tool.name + ": " + tool.description + "\n" + OrElse(tool.url, "")
  {
    var text := "Check out " + tool.name + ": " + tool.description;
    var url := OrElse(tool.url, "");
    if canShare then NativeShare(tool.name, text, url) else Clipboard(text + "\n" + url)
  }

  /** The two ways of sharing carry the same message: the clipboard text is
      the share sheet's text, a newline and its URL, and a tool without a URL
      is shared with an empty one. */
  lemma ShareClipboardExtendsNative(tool: ToolInfoDisplay.ToolInfo)
    ensures ShareTool(tool, false).text == ShareTool(tool, true).text + "\n" + ShareTool(tool, true).url
    ensures !Truthy(tool.url) ==> ShareTool(tool, true).url == ""
                                  && ShareTool(tool, false).text == ShareTool(tool, true).text + "\n"
  {
  }

  /** The category id the chart emits when asked to highlight `toolName`:
      the id of the tool's category when the chart has such a tool. */
  ghost function EmittedCategory(chart: SunburstChart.Chart?, toolName: string): Option<string>
    requires chart != null ==> chart.Valid()
    reads chart
  {
    if chart == null then None
    else match Seqs.FirstIndex(chart.nodes, SunburstChart.IsToolNamed(toolName))
      case None => None
      case Some(t) => Some(chart.nodes[chart.nodes[t].parent.value].id)
  }

  /** `this.sunburstChart?.highlightTool(name)`: nothing without a chart;
      otherwise the chart zooms to the tool's category, marks the tool and
      returns what it emitted on `categorySelect`. */
  method HighlightTool(chart: SunburstChart.Chart?, toolName: string) returns (emitted: Option<string>)
    requires chart != null ==> chart.Valid()
    modifies chart, if chart != null then chart.target else null
    ensures chart != null ==> chart.Valid()
    ensures emitted == EmittedCategory(chart, toolName)
    ensures emitted.Some? <==> ChartFinds(chart, toolName)
    ensures !ChartFinds(chart, toolName) ==> chart != null ==> chart.target[..] == old(chart.target[..])
    ensures ChartFinds(chart, toolName) ==>
              var t := Seqs.FirstIndex(chart.nodes, SunburstChart.IsToolNamed(toolName)).value;
              chart.ZoomedTo(chart.nodes[t].parent.value) && chart.highlightedTool == Some(t)
  {
    emitted := None;
    if chart != null {
      emitted := chart.HighlightTool(toolName);
    }
  }

  class AppState {
    var sunburstData: Option<SunburstData>
    var totalCategories: nat
    var totalTools: nat
    var selectedTool: Option<ToolInfoDisplay.ToolInfo>
    /** What `categorySelect` delivers to `onCategoryClick`: a category id. */
    var selectedCategory: Option<string>

    /** The panel shows a tool or a category, never both. */
    ghost predicate Valid()
      reads this
    {
      !(selectedTool.Some? && selectedCategory.Some?)
    }

    constructor()
      ensures Valid()
      ensures sunburstData.None? && totalCategories == 0 && totalTools == 0
      ensures selectedTool.None? && selectedCategory.None?
    {
      sunburstData := None;
      totalCategories := 0;
      totalTools := 0;
      selectedTool := None;
      selectedCategory := None;
    }

    /** `loadSunburstData`: the tree and its counts, or the fixed fallback
        counts 16 and 500 when the request fails. */
    method LoadSunburstData(response: Loaded)
      modifies this
      ensures response.Loaded? ==>
                && sunburstData == Some(response.data)
                && totalCategories == |response.data.children|
                && totalTools == ToolTotal(response.data.children)
      ensures response.LoadFailed? ==>
                sunburstData == old(sunburstData) && totalCategories == 16 && totalTools == 500
      ensures selectedTool == old(selectedTool) && selectedCategory == old(selectedCategory)
    {
      match response {
        case Loaded(data) =>
          sunburstData := Some(data);
          totalCategories := |data.children|;
          totalTools := ToolTotal(data.children);
        case LoadFailed =>
          totalCategories := 16;
          totalTools := 500;
      }
    }

    /** `onCategoryClick`: the category replaces any tool. */
    method OnCategoryClick(categoryId: string)
      modifies this
      ensures Valid()
      ensures selectedCategory == Some(categoryId) && selectedTool.None?
      ensures sunburstData == old(sunburstData)
      ensures totalCategories == old(totalCategories) && totalTools == old(totalTools)
    {
      selectedCategory := Some(categoryId);
      selectedTool := None;
    }

    /** `onToolClick` and `onToolSelect`: the tool replaces any category. */
    method OnToolSelect(tool: ToolInfoDisplay.ToolInfo)
      modifies this
      ensures Valid()
      ensures selectedTool == Some(tool) && selectedCategory.None?
      ensures sunburstData == old(sunburstData)
      ensures totalCategories == old(totalCategories) && totalTools == old(totalTools)
    {
      selectedTool := Some(tool);
      selectedCategory := None;
    }

    /** `clearSelections` */
    method ClearSelections()
      modifies this
      ensures Valid()
      ensures selectedTool.None? && selectedCategory.None?
      ensures sunburstData == old(sunburstData)
      ensures totalCategories == old(totalCategories) && totalTools == old(totalTools)
    {
      selectedTool := None;
      selectedCategory := None;
    }

    /** `onSearchResult(result)` as written, its 100 ms callback included.
        Both selections are cleared.  A category result calls the chart's
        `highlightCategory`, which the chart does not have, so the callback
        stops there.  A tool result asks the chart to highlight the tool; the
        chart zooms to its category and emits `categorySelect`, which lands
        in `onCategoryClick` at once, and then the tool is stored as well: the
        panel ends up with both a category and a tool. */
    method OnSearchResult(result: SearchResult, chart: SunburstChart.Chart?)
      requires chart != null ==> chart.Valid()
      modifies this, chart, if chart != null then chart.target else null
      ensures chart != null ==> chart.Valid()
      ensures !IsToolRequest(result) ==>
                && selectedTool.None? && selectedCategory.None?
                && (chart != null ==> unchanged(chart) && unchanged(chart.target))
      ensures IsToolRequest(result) ==>
                && selectedTool == Some(SearchedTool(result))
                && selectedCategory == EmittedCategory(chart, result.name)
      ensures IsToolRequest(result) && ChartFinds(chart, result.name) ==> !Valid()
      ensures sunburstData == old(sunburstData)
      ensures totalCategories == old(totalCategories) && totalTools == old(totalTools)
    {
      ClearSelections();
      if !IsToolRequest(result) {
        return;
      }
      var selected := HighlightTool(chart, result.name);
      if selected.Some? {
        OnCategoryClick(selected.value);
      }
      selectedTool := Some(SearchedTool(result));
    }

    /** `onSearchResult` as its comments intend: the chart highlights the
        tool and the panel shows that tool, with no category beside it. */
    method OnSearchResultIntended(result: SearchResult, chart: SunburstChart.Chart?)
      requires chart != null ==> chart.Valid()
      modifies this, chart, if chart != null then chart.target else null
      ensures Valid()
      ensures chart != null ==> chart.Valid()
      ensures selectedCategory.None?
      ensures IsToolRequest(result) <==> selectedTool == Some(SearchedTool(result))
      ensures !IsToolRequest(result) ==>
                selectedTool.None? && (chart != null ==> unchanged(chart) && unchanged(chart.target))
      ensures IsToolRequest(result) && ChartFinds(chart, result.name) ==>
                var t := Seqs.FirstIndex(chart.nodes, SunburstChart.IsToolNamed(result.name)).value;
                chart.ZoomedTo(chart.nodes[t].parent.value) && chart.highlightedTool == Some(t)
      ensures sunburstData == old(sunburstData)
      ensures totalCategories == old(totalCategories) && totalTools == old(totalTools)
    {
      ClearSelections();
      if IsToolRequest(result) {
        var selected := HighlightTool(chart, result.name);
        OnToolSelect(SearchedTool(result));
      }
    }
  }
}
