/** The search box (`search-bar.component.ts`): the keyboard selection over
    the result list, the effect of each result batch, clearing and choosing a
    result, and the pure helpers `escapeRegExp`, `isFirstOfType` and
    `getResultColor`.  The 150 ms hide timer is taken to fire at once, except
    in `selectResult`, which cancels it. */
module SearchBar {
  import opened Js
  import opened Seqs
  import opened Api

  /** The value of `event.key`, for the keys `onKeyDown` tells apart. */
  datatype Key = ArrowDown | ArrowUp | Enter | Escape | OtherKey

  /** The characters `escapeRegExp` escapes: `. * + ? ^ $ { } ( ) | [ ] \` */
  predicate IsRegExpSpecial(c: char) {
    c == '.' || c == '*' || c == '+' || c == '?' || c == '^' || c == '$' || c == '{' || c == '}'
    || c == '(' || c == ')' || c == '|' || c == '[' || c == ']' || c == '\\'
  }

  function SpecialCount(s: string): nat
    decreases |s|
  {
    if s == [] then 0 else (if IsRegExpSpecial(s[0]) then 1 else 0) + SpecialCount(s[1..])
  }

  /** `escapeRegExp(s)`: a backslash before every special character. */
  function EscapeRegExp(s: string): (r: string)
    ensures |r| == |s| + SpecialCount(s)
    decreases |s|
  {
    if s == [] then []
    else (if IsRegExpSpecial(s[0]) then ['\\', s[0]] else [s[0]]) + EscapeRegExp(s[1..])
  }

  /** One character: a special one gets a backslash in front, any other is
      copied as it is. */
  lemma EscapeChar(c: char)
    ensures EscapeRegExp([c]) == if IsRegExpSpecial(c) then ['\\', c] else [c]
  {
    assert [c][1..] == [];
  }

  /** Escaping works character by character: the escape of a concatenation is
      the concatenation of the escapes, so with `EscapeChar` every special
      character, and only those, is preceded by its own backslash, and the
      order is kept. */
  lemma {:induction false} EscapeConcat(a: string, b: string)
    ensures EscapeRegExp(a + b) == EscapeRegExp(a) + EscapeRegExp(b)
    decreases |a|
  {
    if a != [] {
      assert (a + b)[0] == a[0];
      assert (a + b)[1..] == a[1..] + b;
      EscapeConcat(a[1..], b);
    } else {
      assert a + b == b;
    }
  }

  /** Reading an escaped pattern back: a backslash stands for the character after it. */
  function UnescapeRegExp(s: string): string
    decreases |s|
  {
    if s == [] then []
    else if s[0] == '\\' && |s| >= 2 then [s[1]] + UnescapeRegExp(s[2..])
    else [s[0]] + UnescapeRegExp(s[1..])
  }

  /** Escaping loses nothing: every character comes back, in order. */
  lemma {:induction false} UnescapeEscape(s: string)
    ensures UnescapeRegExp(EscapeRegExp(s)) == s
    decreases |s|
  {
    if s != [] {
      var e := EscapeRegExp(s);
      var rest := EscapeRegExp(s[1..]);
      UnescapeEscape(s[1..]);
      if IsRegExpSpecial(s[0]) {
        assert e == ['\\', s[0]] + rest;
        assert e[2..] == rest;
      } else {
        assert e == [s[0]] + rest;
        assert e[1..] == rest;
      }
    }
  }

  /** `findIndex(r => r.type === t)`, with -1 for none. */
  function FindTypeIndex(results: seq<SearchResult>, t: ResultType): (k: int)
    ensures -1 <= k < |results|
    ensures k == -1 <==> forall j :: 0 <= j < |results| ==> results[j].kind != t
    ensures k >= 0 ==> results[k].kind == t && forall j :: 0 <= j < k ==> results[j].kind != t
  {
    match FirstIndex(results, (r: SearchResult) => r.kind == t)
    case None => -1
    case Some(k) => k
  }

  /** `result.color || result.categoryColor || '#3b82f6'` */
  function GetResultColor(result: SearchResult): (c: string)
    ensures c != ""
    ensures Truthy(result.color) ==> c == result.color.value
    ensures !Truthy(result.color) && Truthy(result.categoryColor) ==> c == result.categoryColor.value
    ensures !Truthy(result.color) && !Truthy(result.categoryColor) ==> c == "#3b82f6"
  {
    OrElse(result.color, OrElse(result.categoryColor, "#3b82f6"))
  }

  /** The list a search emits: nothing for a blank query, else the service's answer. */
  function BatchFor(query: string, fetched: seq<SearchResult>): (r: seq<SearchResult>)
    ensures IsBlank(query) ==> r == []
    ensures !IsBlank(query) ==> r == fetched
  {
    if IsBlank(query) then [] else fetched
  }

  /** ArrowDown from any position in `-1..n-1` stays among the results, wrapping the last to the first. */
  lemma ArrowDownInRange(i: int, n: int)
    requires n > 0 && -1 <= i < n
    ensures 0 <= Rem(i + 1, n) < n
    ensures i == n - 1 ==> Rem(i + 1, n) == 0
    ensures i < n - 1 ==> Rem(i + 1, n) == i + 1
  {
  }

  /** ArrowUp from any position in `-1..n-1` stays among the results, wrapping
      the first to the last; from "nothing selected" it lands on the one before
      last (on the only one when there is one). */
  lemma ArrowUpInRange(i: int, n: int)
    requires n > 0 && -1 <= i < n
    ensures 0 <= Rem(i - 1 + n, n) < n
    ensures i == 0 ==> Rem(i - 1 + n, n) == n - 1
    ensures i > 0 ==> Rem(i - 1 + n, n) == i - 1
    ensures i == -1 ==> Rem(i - 1 + n, n) == if n == 1 then 0 else n - 2
  {
  }

  class SearchBarState {
    var searchQuery: string
    var searchResults: seq<SearchResult>
    var showResults: bool
    var selectedIndex: int

    /** The selection is "none" (-1) or a result. */
    ghost predicate Valid()
      reads this
    {
      -1 <= selectedIndex < |searchResults|
    }

    constructor()
      ensures Valid()
      ensures searchQuery == "" && searchResults == [] && !showResults && selectedIndex == -1
    {
      searchQuery := "";
      searchResults := [];
      showResults := false;
      selectedIndex := -1;
    }

    /** `isFirstOfType(index, t)`: `index` is where the first result of type
        `t` sits (so -1 when there is none). */
    function IsFirstOfType(index: int, t: ResultType): (r: bool)
      reads this
      ensures 0 <= index < |searchResults| ==>
                (r <==> searchResults[index].kind == t
                        && forall j :: 0 <= j < index ==> searchResults[j].kind != t)
      ensures index == -1 ==> (r <==> forall j :: 0 <= j < |searchResults| ==> searchResults[j].kind != t)
      ensures (index < -1 || index >= |searchResults|) ==> !r
    {
      index == FindTypeIndex(searchResults, t)
    }

    /** The subscriber of the search pipeline: a new batch for `query` is shown
        with nothing selected. */
    method OnResultBatch(query: string, fetched: seq<SearchResult>)
      modifies this
      ensures Valid()
      ensures searchResults == BatchFor(query, fetched) && showResults && selectedIndex == -1
      ensures searchQuery == old(searchQuery)
    {
      searchResults := BatchFor(query, fetched);
      showResults := true;
      selectedIndex := -1;
    }

    /** `onSearchInput`: the query is stored and pushed to the pipeline
        (returned); a blank query hides the results. */
    method OnSearchInput(query: string) returns (pushed: string)
      requires Valid()
      modifies this
      ensures Valid()
      ensures searchQuery == query && pushed == query && searchResults == old(searchResults)
      ensures IsBlank(query) ==> !showResults && selectedIndex == -1
      ensures !IsBlank(query) ==> showResults == old(showResults) && selectedIndex == old(selectedIndex)
    {
      searchQuery := query;
      pushed := query;
      if IsBlank(query) {
        HideResults();
      }
    }

    /** `onFocus`: results are shown again for a non-blank query that has some. */
    method OnFocus()
      requires Valid()
      modifies this
      ensures Valid()
      ensures showResults == (old(showResults) || (!IsBlank(searchQuery) && |searchResults| > 0))
      ensures searchQuery == old(searchQuery) && searchResults == old(searchResults)
      ensures selectedIndex == old(selectedIndex)
    {
      if !IsBlank(searchQuery) && |searchResults| > 0 {
        showResults := true;
      }
    }

    /** `hideResults`, with its timer fired. */
    method HideResults()
      requires Valid()
      modifies this
      ensures Valid()
      ensures !showResults && selectedIndex == -1
      ensures searchQuery == old(searchQuery) && searchResults == old(searchResults)
    {
      showResults := false;
      selectedIndex := -1;
    }

    /** `clearSearch` */
    method ClearSearch()
      modifies this
      ensures Valid()
      ensures searchQuery == "" && searchResults == [] && !showResults && selectedIndex == -1
    {
      searchQuery := "";
      searchResults := [];
      showResults := false;
      selectedIndex := -1;
    }

    /** `selectResult(result)`: the query becomes the result's name and the
        result is emitted; the hide it schedules is cancelled straight away. */
    method SelectResult(result: SearchResult) returns (emitted: SearchResult)
      requires Valid()
      modifies this
      ensures Valid()
      ensures searchQuery == result.name && emitted == result
      ensures searchResults == old(searchResults) && showResults == old(showResults)
      ensures selectedIndex == old(selectedIndex)
    {
      searchQuery := result.name;
      emitted := result;
    }

    /** `onKeyDown(event)`.  With the list hidden or empty only Enter on a
        non-blank query does anything: it pushes the query again (returned in
        `resubmit`).  Otherwise the arrows move the selection with wrap-around,
        Enter chooses the selected result (returned in `emitted`) and Escape
        hides the list. */
    method OnKeyDown(key: Key) returns (resubmit: Option<string>, emitted: Option<SearchResult>)
      requires Valid()
      modifies this
      ensures Valid()
      ensures searchResults == old(searchResults)
      ensures !old(showResults) || |old(searchResults)| == 0 ==>
                && selectedIndex == old(selectedIndex) && showResults == old(showResults)
                && searchQuery == old(searchQuery) && emitted.None?
                && resubmit == (if key == Enter && !IsBlank(old(searchQuery)) then Some(old(searchQuery)) else None)
      ensures old(showResults) && |old(searchResults)| > 0 ==>
                && resubmit.None?
                && match key
                   case ArrowDown =>
                     && selectedIndex == Rem(old(selectedIndex) + 1, |searchResults|)
                     && showResults && searchQuery == old(searchQuery) && emitted.None?
                   case ArrowUp =>
                     && selectedIndex == Rem(old(selectedIndex) - 1 + |searchResults|, |searchResults|)
                     && showResults && searchQuery == old(searchQuery) && emitted.None?
                   case Enter =>
                     && selectedIndex == old(selectedIndex) && showResults
                     && (if 0 <= old(selectedIndex)
                         then emitted == Some(searchResults[old(selectedIndex)])
                              && searchQuery == searchResults[old(selectedIndex)].name
                         else emitted.None? && searchQuery == old(searchQuery))
                   case Escape =>
                     && !showResults && selectedIndex == -1 && searchQuery == old(searchQuery) && emitted.None?
                   case OtherKey =>
                     && selectedIndex == old(selectedIndex) && showResults
                     && searchQuery == old(searchQuery) && emitted.None?
    {
      resubmit, emitted := None, None;
      if !showResults || |searchResults| == 0 {
        if key == Enter && !IsBlank(searchQuery) {
          resubmit := Some(searchQuery);
        }
        return;
      }
      var n := |searchResults|;
      match key {
        case ArrowDown =>
          ArrowDownInRange(selectedIndex, n);
          selectedIndex := Rem(selectedIndex + 1, n);
        case ArrowUp =>
          ArrowUpInRange(selectedIndex, n);
          selectedIndex := Rem(selectedIndex - 1 + n, n);
        case Enter =>
          if 0 <= selectedIndex < n {
            var r := SelectResult(searchResults[selectedIndex]);
            emitted := Some(r);
          }
        case Escape =>
          HideResults();
        case OtherKey =>
      }
    }
  }
}
