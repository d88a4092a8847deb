/** The in-app catalogue service (`src/app/services/ai-tools.service.ts`):
    `searchTools`, a substring scan over categories and their tools, and
    `getSunburstData`, the category/tool tree handed to the chart. */
module AIToolsService {
  import opened Js
  import opened Seqs

  datatype AITool = AITool(
    name: string, description: string, category: string, url: Option<string>, popularity: int)

  datatype AICategory = AICategory(name: string, description: string, color: string, tools: seq<AITool>)

  /** An element of the search result: a category object or a tool object, with
      the fields of the catalogue entry it was taken from. */
  datatype Found =
    | FoundCategory(name: string, description: string, color: string, tools: seq<AITool>)
    | FoundTool(name: string, description: string, category: string, url: Option<string>, popularity: int)

  function CategoryEntry(c: AICategory): Found {
    FoundCategory(c.name, c.description, c.color, c.tools)
  }

  function ToolEntry(t: AITool): Found {
    FoundTool(t.name, t.description, t.category, t.url, t.popularity)
  }

  function TotalTools(cats: seq<AICategory>): nat
    decreases |cats|
  {
    if cats == [] then 0 else TotalTools(cats[..|cats| - 1]) + |cats[|cats| - 1].tools|
  }

  // ---------------------------------------------------------------- searchTools

  function FoundTools(tools: seq<AITool>): (r: seq<Found>)
    ensures |r| == |tools|
    ensures forall j :: 0 <= j < |tools| ==> r[j] == ToolEntry(tools[j])
  {
    seq(|tools|, j requires 0 <= j < |tools| => ToolEntry(tools[j]))
  }

  /** A category followed by all of its tools. */
  function Entries(c: AICategory): seq<Found> {
    [CategoryEntry(c)] + FoundTools(c.tools)
  }

  /** Every category followed by all of its tools, in catalogue order. */
  function Listing(cats: seq<AICategory>): seq<Found>
    decreases |cats|
  {
    if cats == [] then [] else Listing(cats[..|cats| - 1]) + Entries(cats[|cats| - 1])
  }

  /** The lower-cased name or description includes the lower-cased query. */
  predicate TextMatches(name: string, description: string, lowerQuery: string) {
    Contains(Lower(name), lowerQuery) || Contains(Lower(description), lowerQuery)
  }

  function Matcher(lowerQuery: string): Found -> bool {
    (f: Found) => TextMatches(f.name, f.description, lowerQuery)
  }

  /** The outer `forEach` callback for one category: push the category if it
      matches, then each of its tools that matches. */
  method SearchCategory(c: AICategory, lowerQuery: string, results: seq<Found>) returns (results': seq<Found>)
    ensures results' == results + Filter(Entries(c), Matcher(lowerQuery))
  {
    var p := Matcher(lowerQuery);
    results' := results;
    if TextMatches(c.name, c.description, lowerQuery) {
      results' := results' + [CategoryEntry(c)];
    }
    FilterSnoc([], CategoryEntry(c), p);
    for j := 0 to |c.tools|
      invariant results' == results + Filter([CategoryEntry(c)] + FoundTools(c.tools[..j]), p)
    {
      var t := c.tools[j];
      assert [CategoryEntry(c)] + FoundTools(c.tools[..j + 1])
          == [CategoryEntry(c)] + FoundTools(c.tools[..j]) + [ToolEntry(t)];
      FilterSnoc([CategoryEntry(c)] + FoundTools(c.tools[..j]), ToolEntry(t), p);
      if TextMatches(t.name, t.description, lowerQuery) {
        results' := results' + [ToolEntry(t)];
      }
    }
    assert c.tools[..|c.tools|] == c.tools;
  }

  /** `searchTools(query)`: nothing for a blank query; otherwise every category and
      every tool whose lower-cased name or description includes the lower-cased
      (untrimmed) query, in listing order, with no cap. */
  method SearchTools(cats: seq<AICategory>, query: string) returns (results: seq<Found>)
    ensures IsBlank(query) ==> results == []
    ensures !IsBlank(query) ==> results == Filter(Listing(cats), Matcher(Lower(query)))
  {
    results := [];
    if IsBlank(query) {
      return;
    }
    var lowerQuery := Lower(query);
    for i := 0 to |cats|
      invariant results == Filter(Listing(cats[..i]), Matcher(lowerQuery))
    {
      assert cats[..i + 1][..i] == cats[..i];
      FilterConcat(Listing(cats[..i]), Entries(cats[i]), Matcher(lowerQuery));
      results := SearchCategory(cats[i], lowerQuery, results);
    }
    assert cats[..|cats|] == cats;
  }

  lemma {:induction false} ListingLength(cats: seq<AICategory>)
    ensures |Listing(cats)| == |cats| + TotalTools(cats)
    decreases |cats|
  {
    if cats != [] {
      ListingLength(cats[..|cats| - 1]);
    }
  }

  /** Category `c` and then its tools, in their order, occupy `l` from `off` on. */
  predicate PlacedAt(l: seq<Found>, off: nat, c: AICategory) {
    && off + 1 + |c.tools| <= |l|
    && l[off] == CategoryEntry(c)
    && forall j :: 0 <= j < |c.tools| ==> l[off + 1 + j] == ToolEntry(c.tools[j])
  }

  /** A category's entries appended to a list sit right after it. */
  lemma PlacedAfter(l: seq<Found>, c: AICategory)
    ensures PlacedAt(l + Entries(c), |l|, c)
  {
    var e := Entries(c);
    forall j | 0 <= j < |c.tools|
      ensures (l + e)[|l| + 1 + j] == ToolEntry(c.tools[j])
    {
      assert (l + e)[|l| + 1 + j] == e[1 + j];
    }
  }

  /** Appending to a list keeps what it holds where it was. */
  lemma PlacedBefore(l: seq<Found>, e: seq<Found>, off: nat, c: AICategory)
    requires PlacedAt(l, off, c)
    ensures PlacedAt(l + e, off, c)
  {
    forall j | 0 <= j < |c.tools|
      ensures (l + e)[off + 1 + j] == ToolEntry(c.tools[j])
    {
      assert (l + e)[off + 1 + j] == l[off + 1 + j];
    }
  }

  /** Where each entry of the listing sits: category `i` at `Offset(cats, i)`,
      followed immediately by its tools in their order. */
  function Offset(cats: seq<AICategory>, i: nat): nat
    requires i <= |cats|
  {
    i + TotalTools(cats[..i])
  }

  lemma {:induction false} ListingAt(cats: seq<AICategory>, i: nat)
    requires i < |cats|
    ensures PlacedAt(Listing(cats), Offset(cats, i), cats[i])
    decreases |cats|
  {
    var n := |cats| - 1;
    var front := cats[..n];
    var l, e := Listing(front), Entries(cats[n]);
    assert Listing(cats) == l + e;
    if i < n {
      ListingAt(front, i);
      assert front[..i] == cats[..i];
      assert front[i] == cats[i];
      assert Offset(front, i) == Offset(cats, i);
      PlacedBefore(l, e, Offset(cats, i), cats[i]);
    } else {
      assert cats[..i] == front;
      ListingLength(front);
      assert Offset(cats, i) == |l|;
      PlacedAfter(l, cats[n]);
    }
  }

  /** The result never holds more than the categories plus all their tools. */
  lemma SearchToolsBound(cats: seq<AICategory>, query: string)
    ensures |Filter(Listing(cats), Matcher(Lower(query)))| <= |cats| + TotalTools(cats)
  {
    ListingLength(cats);
  }

  /** Soundness and completeness: an entry of the catalogue is in the result of a
      non-blank query exactly when its lower-cased name or description includes
      the lower-cased query. */
  lemma SearchToolsExact(cats: seq<AICategory>, query: string, i: nat)
    requires i < |cats|
    ensures CategoryEntry(cats[i]) in Filter(Listing(cats), Matcher(Lower(query)))
            <==> TextMatches(cats[i].name, cats[i].description, Lower(query))
    ensures forall j :: 0 <= j < |cats[i].tools| ==>
              (ToolEntry(cats[i].tools[j]) in Filter(Listing(cats), Matcher(Lower(query)))
               <==> TextMatches(cats[i].tools[j].name, cats[i].tools[j].description, Lower(query)))
  {
    ListingAt(cats, i);
    var l := Listing(cats);
    var o := Offset(cats, i);
    var p := Matcher(Lower(query));
    assert l[o] == CategoryEntry(cats[i]);
    forall j | 0 <= j < |cats[i].tools|
      ensures ToolEntry(cats[i].tools[j]) in Filter(l, p)
              <==> TextMatches(cats[i].tools[j].name, cats[i].tools[j].description, Lower(query))
    {
      assert l[o + 1 + j] == ToolEntry(cats[i].tools[j]);
    }
  }

  // ---------------------------------------------------------------- getSunburstData

  /** The optional-field node of `SunburstNode` in `ai-tool.model.ts`. */
  datatype SunburstNode = SunburstNode(
    name: string,
    value: Option<int>,
    children: Option<seq<SunburstNode>>,
    category: Option<string>,
    description: Option<string>,
    url: Option<string>,
    color: Option<string>)

  function ToolNode(c: AICategory, t: AITool): SunburstNode {
    SunburstNode(t.name, Some(t.popularity), None, Some(c.name), Some(t.description), t.url, Some(c.color))
  }

  function CategoryNode(c: AICategory): SunburstNode {
    SunburstNode(c.name, None,
      Some(seq(|c.tools|, j requires 0 <= j < |c.tools| => ToolNode(c, c.tools[j]))),
      Some(c.name), Some(c.description), None, Some(c.color))
  }

  /** `getSunburstData()`: a root named 'AI Tools' with one child per category, in
      order, and under each one leaf per tool, in order; a leaf's value is the
      tool's popularity, and its colour and category are its category's. */
  function GetSunburstData(cats: seq<AICategory>): (root: SunburstNode)
    ensures root.name == "AI Tools" && root.children.Some? && |root.children.value| == |cats|
    ensures forall i :: 0 <= i < |cats| ==>
      var node := root.children.value[i];
      && node.name == cats[i].name && node.category == Some(cats[i].name)
      && node.description == Some(cats[i].description) && node.color == Some(cats[i].color)
      && node.children.Some? && |node.children.value| == |cats[i].tools|
    ensures forall i, j :: 0 <= i < |cats| && 0 <= j < |cats[i].tools| ==>
      var leaf := root.children.value[i].children.value[j];
      var t := cats[i].tools[j];
      && leaf.name == t.name && leaf.description == Some(t.description) && leaf.url == t.url
      && leaf.value == Some(t.popularity) && leaf.color == Some(cats[i].color)
      && leaf.category == Some(cats[i].name) && leaf.children.None?
  {
    SunburstNode("AI Tools", None,
      Some(seq(|cats|, i requires 0 <= i < |cats| => CategoryNode(cats[i]))),
      None, None, None, None)
  }
}
