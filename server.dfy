/** The route handlers of the Express catalogue server (`server.js`): the
    pure bodies of `/api/categories`, `/api/tool/:id`, `/api/categories/:id`,
    `/api/categories/:id/tools`, `/api/search` and `/api/sunburst-data`, over
    an arbitrary catalogue of categories, each holding its tools. */
module Server {
  import opened Js
  import opened Seqs
  import Api

  datatype Tool = Tool(id: string, name: string, description: string, url: string, popularity: int)

  datatype Category = Category(
    id: string, name: string, description: string, color: string, icon: string, tools: seq<Tool>)

  /** An element of the `/api/categories` response. */
  datatype CategorySummary = CategorySummary(
    id: string, name: string, description: string, color: string, icon: string, toolCount: nat)

  /** An element of the `/api/search` response: a category spread with its tool
      count, or a tool spread with the fields of the category that holds it. */
  datatype Hit =
    | CategoryHit(id: string, name: string, description: string, color: string, icon: string,
                  tools: seq<Tool>, toolCount: nat)
    | ToolHit(id: string, name: string, description: string, url: string, popularity: int,
              category: string, categoryId: string, categoryColor: string)

  /** A JSON body with status 200, or status 404 with `{ error }`. */
  datatype Response<T> = Ok(body: T) | NotFound(error: string)

  /** The number of tools in the whole catalogue. */
  function TotalTools(cats: seq<Category>): nat
    decreases |cats|
  {
    if cats == [] then 0 else TotalTools(cats[..|cats| - 1]) + |cats[|cats| - 1].tools|
  }

  // ---------------------------------------------------------------- /api/categories

  function Summary(c: Category): CategorySummary {
    CategorySummary(c.id, c.name, c.description, c.color, c.icon, |c.tools|)
  }

  /** `/api/categories`: one summary per category, in catalogue order. */
  function CategoriesRoute(cats: seq<Category>): (r: seq<CategorySummary>)
    ensures |r| == |cats|
    ensures forall i :: 0 <= i < |cats| ==>
      && r[i].id == cats[i].id && r[i].name == cats[i].name
      && r[i].description == cats[i].description && r[i].color == cats[i].color
      && r[i].icon == cats[i].icon && r[i].toolCount == |cats[i].tools|
  {
    seq(|cats|, i requires 0 <= i < |cats| => Summary(cats[i]))
  }

  // ---------------------------------------------------------------- /api/tool/:id

  function ToolHitOf(c: Category, t: Tool): Hit {
    ToolHit(t.id, t.name, t.description, t.url, t.popularity, c.name, c.id, c.color)
  }

  function HasId(id: string): Tool -> bool {
    (t: Tool) => t.id == id
  }

  predicate HasToolId(c: Category, id: string) {
    exists j :: 0 <= j < |c.tools| && c.tools[j].id == id
  }

  /** `cats[i].tools[j]` is the first tool with this id when the categories are scanned in order. */
  predicate FirstToolAt(cats: seq<Category>, id: string, i: int, j: int) {
    && 0 <= i < |cats| && 0 <= j < |cats[i].tools| && cats[i].tools[j].id == id
    && (forall i' :: 0 <= i' < i ==> !HasToolId(cats[i'], id))
    && (forall j' :: 0 <= j' < j ==> cats[i].tools[j'].id != id)
  }

  /** `/api/tool/:id`: the first tool with the id, flattened with its category's
      name, id and colour; 404 when no category holds such a tool. */
  method ToolRoute(cats: seq<Category>, id: string) returns (r: Response<Hit>)
    ensures r.NotFound? <==> forall i :: 0 <= i < |cats| ==> !HasToolId(cats[i], id)
    ensures r.NotFound? ==> r.error == "Tool not found"
    ensures r.Ok? ==> exists i, j :: FirstToolAt(cats, id, i, j) && r.body == ToolHitOf(cats[i], cats[i].tools[j])
  {
    for i := 0 to |cats|
      invariant forall i' :: 0 <= i' < i ==> !HasToolId(cats[i'], id)
    {
      var k := FirstIndex(cats[i].tools, HasId(id));
      if k.Some? {
        assert FirstToolAt(cats, id, i, k.value);
        return Ok(ToolHitOf(cats[i], cats[i].tools[k.value]));
      }
    }
    return NotFound("Tool not found");
  }

  // ---------------------------------------------------------------- /api/categories/:id(/tools)

  function CategoryHasId(id: string): Category -> bool {
    (c: Category) => c.id == id
  }

  /** `/api/categories/:id`: the first category with the id, or 404. */
  function CategoryRoute(cats: seq<Category>, id: string): (r: Response<Category>)
    ensures r.NotFound? <==> forall i :: 0 <= i < |cats| ==> cats[i].id != id
    ensures r.NotFound? ==> r.error == "Category not found"
    ensures r.Ok? ==> exists k :: 0 <= k < |cats| && cats[k].id == id && r.body == cats[k]
                                 && forall i :: 0 <= i < k ==> cats[i].id != id
  {
    match FirstIndex(cats, CategoryHasId(id))
    case None => NotFound("Category not found")
    case Some(k) => Ok(cats[k])
  }

  /** `/api/categories/:id/tools`: the tools of the same category, or the same 404. */
  function CategoryToolsRoute(cats: seq<Category>, id: string): (r: Response<seq<Tool>>)
    ensures r.NotFound? <==> CategoryRoute(cats, id).NotFound?
    ensures r.NotFound? ==> r.error == "Category not found"
    ensures r.Ok? ==> r.body == CategoryRoute(cats, id).body.tools
  {
    match FirstIndex(cats, CategoryHasId(id))
    case None => NotFound("Category not found")
    case Some(k) => Ok(cats[k].tools)
  }

  // ---------------------------------------------------------------- /api/search

  function CategoryHitOf(c: Category): Hit {
    CategoryHit(c.id, c.name, c.description, c.color, c.icon, c.tools, |c.tools|)
  }

  function ToolHitsOf(c: Category, tools: seq<Tool>): (r: seq<Hit>)
    ensures |r| == |tools|
    ensures forall j :: 0 <= j < |tools| ==> r[j] == ToolHitOf(c, tools[j])
  {
    seq(|tools|, j requires 0 <= j < |tools| => ToolHitOf(c, tools[j]))
  }

  /** A category followed by all of its tools. */
  function Entries(c: Category): seq<Hit> {
    [CategoryHitOf(c)] + ToolHitsOf(c, c.tools)
  }

  /** Every category followed by all of its tools, in catalogue order. */
  function Listing(cats: seq<Category>): seq<Hit>
    decreases |cats|
  {
    if cats == [] then [] else Listing(cats[..|cats| - 1]) + Entries(cats[|cats| - 1])
  }

  /** `req.query.q?.toLowerCase() || ''` */
  function SearchQuery(q: Option<string>): string {
    if q.Some? then Lower(q.value) else ""
  }

  /** The lower-cased name or description includes the query. */
  predicate TextMatches(name: string, description: string, query: string) {
    Contains(Lower(name), query) || Contains(Lower(description), query)
  }

  function Matcher(query: string): Hit -> bool {
    (h: Hit) => TextMatches(h.name, h.description, query)
  }

  /** The uncapped matches: the entries of the listing that match, in listing order. */
  function Matches(cats: seq<Category>, query: string): seq<Hit> {
    Filter(Listing(cats), Matcher(query))
  }

  /** The `forEach` callback for one category: push the category if it
      matches, then each of its tools that matches. */
  method SearchCategory(c: Category, query: string, results: seq<Hit>) returns (results': seq<Hit>)
    ensures results' == results + Filter(Entries(c), Matcher(query))
  {
    var p := Matcher(query);
    results' := results;
    if TextMatches(c.name, c.description, query) {
      results' := results' + [CategoryHitOf(c)];
    }
    FilterSnoc([], CategoryHitOf(c), p);
    for j := 0 to |c.tools|
      invariant results' == results + Filter([CategoryHitOf(c)] + ToolHitsOf(c, c.tools[..j]), p)
    {
      var t := c.tools[j];
      assert [CategoryHitOf(c)] + ToolHitsOf(c, c.tools[..j + 1])
          == [CategoryHitOf(c)] + ToolHitsOf(c, c.tools[..j]) + [ToolHitOf(c, t)];
      FilterSnoc([CategoryHitOf(c)] + ToolHitsOf(c, c.tools[..j]), ToolHitOf(c, t), p);
      if TextMatches(t.name, t.description, query) {
        results' := results' + [ToolHitOf(c, t)];
      }
    }
    assert c.tools[..|c.tools|] == c.tools;
  }

  /** `/api/search?q=`: the nested `forEach` loops push every matching category
      and then its matching tools; the response is the first 10 of them. */
  method SearchRoute(cats: seq<Category>, q: Option<string>) returns (response: seq<Hit>)
    ensures response == Take(Matches(cats, SearchQuery(q)), 10)
    ensures |response| <= 10
  {
    var query := SearchQuery(q);
    var results: seq<Hit> := [];
    for i := 0 to |cats|
      invariant results == Filter(Listing(cats[..i]), Matcher(query))
    {
      assert cats[..i + 1][..i] == cats[..i];
      FilterConcat(Listing(cats[..i]), Entries(cats[i]), Matcher(query));
      results := SearchCategory(cats[i], query, results);
    }
    assert cats[..|cats|] == cats;
    response := Take(results, 10);
  }

  /** An empty or missing `q` matches every entry: the response is the first 10
      entries of the category-then-tools listing. */
  lemma SearchWithoutQuery(cats: seq<Category>, q: Option<string>)
    requires q.None? || q.value == ""
    ensures Take(Matches(cats, SearchQuery(q)), 10) == Take(Listing(cats), 10)
  {
    var l := Listing(cats);
    forall i | 0 <= i < |l| ensures Matcher("")(l[i]) {
      ContainsEmpty(Lower(l[i].name));
    }
    FilterAll(l, Matcher(""));
  }

  /** Where each entry of the listing sits: category `i` at `Offset(cats, i)`,
      followed immediately by its tools in their order. */
  function Offset(cats: seq<Category>, i: nat): nat
    requires i <= |cats|
  {
    i + TotalTools(cats[..i])
  }

  lemma {:induction false} ListingLength(cats: seq<Category>)
    ensures |Listing(cats)| == |cats| + TotalTools(cats)
    decreases |cats|
  {
    if cats != [] {
      ListingLength(cats[..|cats| - 1]);
    }
  }

  /** Category `c` and then its tools, in their order, occupy `l` from `off` on. */
  predicate PlacedAt(l: seq<Hit>, off: nat, c: Category) {
    && off + 1 + |c.tools| <= |l|
    && l[off] == CategoryHitOf(c)
    && forall j :: 0 <= j < |c.tools| ==> l[off + 1 + j] == ToolHitOf(c, c.tools[j])
  }

  /** A category's entries appended to a list sit right after it. */
  lemma PlacedAfter(l: seq<Hit>, c: Category)
    ensures PlacedAt(l + Entries(c), |l|, c)
  {
    var e := Entries(c);
    forall j | 0 <= j < |c.tools|
      ensures (l + e)[|l| + 1 + j] == ToolHitOf(c, c.tools[j])
    {
      assert (l + e)[|l| + 1 + j] == e[1 + j];
    }
  }

  /** Appending to a list keeps what it holds where it was. */
  lemma PlacedBefore(l: seq<Hit>, e: seq<Hit>, off: nat, c: Category)
    requires PlacedAt(l, off, c)
    ensures PlacedAt(l + e, off, c)
  {
    forall j | 0 <= j < |c.tools|
      ensures (l + e)[off + 1 + j] == ToolHitOf(c, c.tools[j])
    {
      assert (l + e)[off + 1 + j] == l[off + 1 + j];
    }
  }

  lemma {:induction false} ListingAt(cats: seq<Category>, i: nat)
    requires i < |cats|
    ensures PlacedAt(Listing(cats), Offset(cats, i), cats[i])
    decreases |cats|
  {
    var n := |cats| - 1;
    var front := cats[..n];
    var l, e := Listing(front), Entries(cats[n]);
    assert Listing(cats) == l + e;
    if i < n {
      ListingAt(front, i);
      assert front[..i] == cats[..i];
      assert front[i] == cats[i];
      assert Offset(front, i) == Offset(cats, i);
      PlacedBefore(l, e, Offset(cats, i), cats[i]);
    } else {
      assert cats[..i] == front;
      ListingLength(front);
      assert Offset(cats, i) == |l|;
      PlacedAfter(l, cats[n]);
    }
  }

  /** Every tool entry of the listing is a tool of the catalogue carrying the
      name, id and colour of the category that contains it. */
  lemma {:induction false} ListingToolProvenance(cats: seq<Category>, k: nat)
    requires k < |Listing(cats)| && Listing(cats)[k].ToolHit?
    ensures exists i, j :: 0 <= i < |cats| && 0 <= j < |cats[i].tools|
                           && Listing(cats)[k] == ToolHitOf(cats[i], cats[i].tools[j])
    decreases |cats|
  {
    var n := |cats| - 1;
    var front := cats[..n];
    var l := Listing(front);
    if k < |l| {
      ListingToolProvenance(front, k);
      var i, j :| 0 <= i < |front| && 0 <= j < |front[i].tools| && l[k] == ToolHitOf(front[i], front[i].tools[j]);
      assert cats[i] == front[i];
    } else {
      var j := k - |l| - 1;
      assert Listing(cats)[k] == ToolHitOf(cats[n], cats[n].tools[j]);
    }
  }

  /** Every entry of the search response matches the lower-cased query, and
      every tool entry carries its own category's fields. */
  lemma SearchResponseSound(cats: seq<Category>, q: Option<string>, k: nat)
    requires k < |Take(Matches(cats, SearchQuery(q)), 10)|
    ensures var h := Take(Matches(cats, SearchQuery(q)), 10)[k];
            && TextMatches(h.name, h.description, SearchQuery(q))
            && (h.ToolHit? ==> exists i, j :: 0 <= i < |cats| && 0 <= j < |cats[i].tools|
                                              && h == ToolHitOf(cats[i], cats[i].tools[j]))
  {
    var m := Matches(cats, SearchQuery(q));
    var h := m[k];
    assert h in Listing(cats) && Matcher(SearchQuery(q))(h);
    var k' :| 0 <= k' < |Listing(cats)| && Listing(cats)[k'] == h;
    if h.ToolHit? {
      ListingToolProvenance(cats, k');
    }
  }

  /** Completeness of the uncapped matches: every matching category and every
      matching tool of the catalogue is among them. */
  lemma MatchesComplete(cats: seq<Category>, query: string, i: nat)
    requires i < |cats|
    ensures TextMatches(cats[i].name, cats[i].description, query) ==> CategoryHitOf(cats[i]) in Matches(cats, query)
    ensures forall j :: 0 <= j < |cats[i].tools| ==>
              TextMatches(cats[i].tools[j].name, cats[i].tools[j].description, query) ==>
              ToolHitOf(cats[i], cats[i].tools[j]) in Matches(cats, query)
  {
    ListingAt(cats, i);
    var l := Listing(cats);
    var o := Offset(cats, i);
    assert Matcher(query)(l[o]) == TextMatches(cats[i].name, cats[i].description, query);
    forall j | 0 <= j < |cats[i].tools| && TextMatches(cats[i].tools[j].name, cats[i].tools[j].description, query)
      ensures ToolHitOf(cats[i], cats[i].tools[j]) in Matches(cats, query)
    {
      assert l[o + 1 + j] == ToolHitOf(cats[i], cats[i].tools[j]);
      assert Matcher(query)(l[o + 1 + j]);
    }
  }

  // ---------------------------------------------------------------- /api/sunburst-data

  function SunburstToolOf(c: Category, t: Tool): Api.SunburstTool {
    Api.SunburstTool(t.name, t.description, t.url, t.popularity, t.id, c.color)
  }

  function SunburstCategoryOf(c: Category): Api.SunburstCategory {
    Api.SunburstCategory(c.name, c.description, c.color, c.id,
      seq(|c.tools|, j requires 0 <= j < |c.tools| => SunburstToolOf(c, c.tools[j])))
  }

  /** `/api/sunburst-data`: a root named 'AI Tools' with one child per category
      and one grandchild per tool, whose value is the tool's popularity and
      whose colour is its category's colour. */
  function SunburstRoute(cats: seq<Category>): (r: Api.SunburstData)
    ensures r.name == "AI Tools" && |r.children| == |cats|
    ensures forall i :: 0 <= i < |cats| ==>
      && r.children[i].id == cats[i].id && r.children[i].name == cats[i].name
      && r.children[i].description == cats[i].description && r.children[i].color == cats[i].color
      && |r.children[i].children| == |cats[i].tools|
    ensures forall i, j :: 0 <= i < |cats| && 0 <= j < |cats[i].tools| ==>
      var leaf := r.children[i].children[j];
      var t := cats[i].tools[j];
      leaf.name == t.name && leaf.description == t.description && leaf.url == t.url
      && leaf.id == t.id && leaf.value == t.popularity && leaf.color == cats[i].color
  {
    Api.SunburstData("AI Tools", seq(|cats|, i requires 0 <= i < |cats| => SunburstCategoryOf(cats[i])))
  }
}
