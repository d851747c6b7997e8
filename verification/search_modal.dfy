/**
 * `SearchModal`: the site search. A query filters the locale's page list,
 * the arrow keys move a highlighted index, Enter opens the highlighted page
 * and the results are shown grouped by category.
 *
 * Lower-casing (`toLowerCase`) is a parameter of the model; the page lists
 * are a parameter too.
 */
module SearchModal {
  import opened Wrappers
  import opened Seqs
  import opened Text
  import Json

  /** A search result; `description` is optional. */
  datatype Page = Page(title: string, path: string, category: string, description: Option<string>)

  /** The page lists of the three locales. */
  datatype Contents = Contents(es: seq<Page>, nl: seq<Page>, de: seq<Page>)

  /** `contentPerLocale[locale] || contentPerLocale.es`. A name the object
      inherits finds a function, not a page list, and filtering it throws:
      `None`. */
  function PagesFor(c: Contents, locale: string): (r: Option<seq<Page>>)
    ensures r.None? <==> locale in Json.ObjectPrototypeNames
    ensures locale == "nl" ==> r == Some(c.nl)
    ensures locale == "de" ==> r == Some(c.de)
    ensures locale != "nl" && locale != "de" && locale !in Json.ObjectPrototypeNames ==> r == Some(c.es)
  {
    if locale == "nl" then Some(c.nl)
    else if locale == "de" then Some(c.de)
    else if locale in Json.ObjectPrototypeNames then None
    else Some(c.es)
  }

  /** The filter's test: the lowercased query occurs in the lowercased
      title, description (when there is one) or category. */
  predicate Matches(p: Page, q: string, lower: string -> string) {
    || Contains(lower(p.title), q)
    || (p.description.Some? && Contains(lower(p.description.value), q))
    || Contains(lower(p.category), q)
  }

  /** The filter's test as a value, for `Filter`. */
  function MatchesQuery(q: string, lower: string -> string): Page -> bool {
    (p: Page) => Matches(p, q, lower)
  }

  /** The modal's state: the query typed, the results shown and the
      highlighted index, which may be -1 or stale. */
  datatype State = State(query: string, results: seq<Page>, selected: int)

  const Initial: State := State("", [], 0)

  /** `handleInputChange`: the query is stored and searched. A blank query
      clears the results but leaves the index alone; any other query shows
      the matching pages in page order and highlights the first. */
  function InputChange(s: State, pages: seq<Page>, value: string, lower: string -> string): (r: State)
    ensures r.query == value
    ensures IsBlank(value) ==> r.results == [] && r.selected == s.selected
    ensures !IsBlank(value) ==> r.selected == 0
    ensures !IsBlank(value) ==> forall p :: p in r.results <==> p in pages && Matches(p, lower(value), lower)
    ensures |r.results| <= |pages|
  {
    if IsBlank(value) then s.(query := value, results := [])
    else State(value, Filter(pages, MatchesQuery(lower(value), lower)), 0)
  }

  /** What a key press does besides changing the state. */
  datatype Effect = NoEffect | Navigate(path: string) | CloseModal

  /** `handleKeyDown`. */
  function KeyDown(s: State, key: string): (r: (State, Effect))
    ensures key == "Escape" ==> r == (s, CloseModal)
    ensures key == "ArrowDown" ==> r.0.selected <= |s.results| - 1 && r.1 == NoEffect
    ensures key == "ArrowUp" ==> r.0.selected >= 0 && r.1 == NoEffect
    // ArrowDown moves one step on, stopping at the last result:
    // `Math.min(prev + 1, results.length - 1)`.
    ensures key == "ArrowDown" ==>
              && r.0.selected <= s.selected + 1
              && (r.0.selected == s.selected + 1 || r.0.selected == |s.results| - 1)
    // ArrowUp moves one step back, stopping at the first: `Math.max(prev - 1, 0)`.
    ensures key == "ArrowUp" ==>
              && r.0.selected >= s.selected - 1
              && (r.0.selected == s.selected - 1 || r.0.selected == 0)
    ensures key != "ArrowDown" && key != "ArrowUp" ==> r.0 == s
    ensures r.0.query == s.query && r.0.results == s.results
    ensures r.1.Navigate? <==> key == "Enter" && 0 <= s.selected < |s.results|
    ensures r.1.Navigate? ==> r.1.path == s.results[s.selected].path
  {
    if key == "Escape" then (s, CloseModal)
    else if key == "ArrowDown" then
      (s.(selected := if s.selected + 1 < |s.results| - 1 then s.selected + 1 else |s.results| - 1), NoEffect)
    else if key == "ArrowUp" then
      (s.(selected := if s.selected - 1 > 0 then s.selected - 1 else 0), NoEffect)
    else if key == "Enter" && 0 <= s.selected < |s.results| then
      (s, Navigate(s.results[s.selected].path))
    else (s, NoEffect)
  }

  /** The effect on `isOpen` turning false: everything is reset. */
  function Close(s: State): (r: State)
    ensures r.query == "" && r.results == [] && r.selected == 0
  {
    Initial
  }

  /** The "no results" message shows for a non-empty query with no results. */
  predicate ShowsNoResults(s: State) {
    s.query != "" && s.results == []
  }

  /** The index is never below -1, and with results on screen it points
      at one of them. */
  predicate IndexInRange(s: State) {
    s.selected >= -1 && (s.results != [] ==> 0 <= s.selected < |s.results|)
  }

  // ------------------------------------------------------------ grouping

  /** The `groupedResults` object: its keys in insertion order and the
      list under each key. */
  datatype Groups = Groups(keys: seq<string>, lists: map<string, seq<Page>>)

  const NoGroups: Groups := Groups([], map[])

  /** Each key once, and a list exactly under the keys. */
  predicate WellKeyed(g: Groups) {
    NoDup(g.keys) && (forall k :: k in g.lists ==> k in g.keys) && (forall k :: k in g.keys ==> k in g.lists)
  }

  /** One step of the `reduce`: the result joins its category's list,
      which is created (as the last key) when missing. */
  function Push(g: Groups, p: Page): (r: Groups)
    ensures WellKeyed(g) ==> WellKeyed(r)
  {
    var c := p.category;
    if c in g.lists then g.(lists := g.lists[c := g.lists[c] + [p]])
    else Groups(g.keys + [c], g.lists[c := [p]])
  }

  /** The `reduce` over the results, from a given accumulator. */
  function Reduce(g: Groups, rs: seq<Page>): (r: Groups)
    ensures WellKeyed(g) ==> WellKeyed(r)
    decreases |rs|
  {
    if rs == [] then g else Reduce(Push(g, rs[0]), rs[1..])
  }

  /** `groupedResults`. */
  function Grouped(rs: seq<Page>): Groups {
    Reduce(NoGroups, rs)
  }

  /** A category's list, empty when it has none. */
  function Items(g: Groups, c: string): seq<Page> {
    if c in g.lists then g.lists[c] else []
  }

  /** The results of one category, in order. */
  function InCategory(c: string): Page -> bool {
    (p: Page) => p.category == c
  }

  /** `rs.filter(InCategory(c))`, unfolded. */
  function OfCategory(rs: seq<Page>, c: string): seq<Page> {
    if rs == [] then [] else (if rs[0].category == c then [rs[0]] else []) + OfCategory(rs[1..], c)
  }

  /** The lists under the given keys, one after the other. */
  function Concat(keys: seq<string>, lists: map<string, seq<Page>>): seq<Page> {
    if keys == [] then [] else (if keys[0] in lists then lists[keys[0]] else []) + Concat(keys[1..], lists)
  }

  /** The results in the order they are drawn: `Object.entries` walks the
      keys in insertion order (no category is an array index). */
  function Flatten(g: Groups): seq<Page> {
    Concat(g.keys, g.lists)
  }

  /** Some result has category `c`. */
  predicate Occurs(rs: seq<Page>, c: string)
    ensures Occurs(rs, c) <==> exists k :: 0 <= k < |rs| && rs[k].category == c
  {
    rs != [] && (rs[0].category == c || Occurs(rs[1..], c))
  }

  /** No category's results are interrupted by another category's. */
  predicate Contiguous(rs: seq<Page>) {
    forall i, j, k :: 0 <= i < k < j < |rs| && rs[i].category == rs[j].category ==> rs[k].category == rs[i].category
  }

  // ---------------------------------------------------------------- lemmas

  /** Every key press and input keeps the index on a result whenever there
      are results, so Enter then always opens the highlighted one. */
  lemma IndexStaysInRange(s: State, pages: seq<Page>, value: string, key: string, lower: string -> string)
    requires IndexInRange(s)
    ensures IndexInRange(InputChange(s, pages, value, lower))
    ensures IndexInRange(KeyDown(s, key).0)
    ensures s.results != [] && key == "Enter" ==> KeyDown(s, key).1 == Navigate(s.results[s.selected].path)
  {
  }

  /** ArrowDown stops at the last result and ArrowUp at the first; with no
      results ArrowDown gives -1, where Enter does nothing. */
  lemma ArrowBounds(s: State)
    requires IndexInRange(s)
    ensures |s.results| > 0 && s.selected == |s.results| - 1 ==> KeyDown(s, "ArrowDown").0 == s
    ensures s.selected == 0 ==> KeyDown(s, "ArrowUp").0 == s
    ensures s.results == [] ==> KeyDown(s, "ArrowDown").0.selected == -1
    ensures s.results == [] ==> KeyDown(KeyDown(s, "ArrowDown").0, "Enter").1 == NoEffect
  {
  }

  /** The results of a search appear in page order, and a blank query gives
      none. */
  lemma SearchKeepsPageOrder(s: State, pages: seq<Page>, value: string, lower: string -> string)
    ensures IsSubsequence(InputChange(s, pages, value, lower).results, pages)
  {
    if !IsBlank(value) {
      FilterIsSubsequence(pages, MatchesQuery(lower(value), lower));
    }
  }

  /** A query of spaces shows the "no results" message. */
  lemma SpacesShowNoResults(s: State, pages: seq<Page>, lower: string -> string)
    ensures ShowsNoResults(InputChange(s, pages, "  ", lower))
  {
  }

  /** Closing forgets the query, the results and the index: after a close,
      Enter does nothing. */
  lemma CloseForgets(s: State)
    ensures Close(s) == Initial
    ensures KeyDown(Close(s), "Enter").1 == NoEffect
    ensures !ShowsNoResults(Close(s))
  {
  }

  /** A result goes to its own category's list; the others are untouched. */
  lemma PushItems(g: Groups, p: Page, c: string)
    ensures Items(Push(g, p), c) == Items(g, c) + (if p.category == c then [p] else [])
    ensures c in Push(g, p).lists <==> c in g.lists || p.category == c
  {
  }

  /** The `reduce` appends each category's results, in order, to that
      category's list, and opens a list exactly for the categories that
      occur. */
  lemma {:induction false} ReduceItems(g: Groups, rs: seq<Page>, c: string)
    ensures Items(Reduce(g, rs), c) == Items(g, c) + OfCategory(rs, c)
    ensures c in Reduce(g, rs).lists <==> c in g.lists || Occurs(rs, c)
    decreases |rs|
  {
    if rs != [] {
      PushItems(g, rs[0], c);
      ReduceItems(Push(g, rs[0]), rs[1..], c);
    }
  }

  lemma {:induction false} OfCategoryIsFilter(rs: seq<Page>, c: string)
    ensures OfCategory(rs, c) == Filter(rs, InCategory(c))
  {
    if rs != [] {
      OfCategoryIsFilter(rs[1..], c);
    }
  }

  /** `groupedResults` puts each result in exactly one list, its category's,
      keeping the results' order within each list; a category is a key
      exactly when some result has it, and no key repeats. */
  lemma GroupedPartitions(rs: seq<Page>, c: string)
    ensures WellKeyed(Grouped(rs))
    ensures Items(Grouped(rs), c) == Filter(rs, InCategory(c))
    ensures c in Grouped(rs).keys <==> exists k :: 0 <= k < |rs| && rs[k].category == c
    ensures IsSubsequence(Items(Grouped(rs), c), rs)
  {
    assert WellKeyed(NoGroups);
    ReduceItems(NoGroups, rs, c);
    OfCategoryIsFilter(rs, c);
    FilterIsSubsequence(rs, InCategory(c));
  }

  /** The `reduce` one result later. */
  lemma {:induction false} ReduceSnoc(g: Groups, rs: seq<Page>, p: Page)
    ensures Reduce(g, rs + [p]) == Push(Reduce(g, rs), p)
    decreases |rs|
  {
    if rs == [] {
      assert [p][1..] == [];
    } else {
      assert (rs + [p])[1..] == rs[1..] + [p];
      ReduceSnoc(Push(g, rs[0]), rs[1..], p);
    }
  }

  lemma {:induction false} ConcatAppend(a: seq<string>, b: seq<string>, lists: map<string, seq<Page>>)
    ensures Concat(a + b, lists) == Concat(a, lists) + Concat(b, lists)
  {
    if a == [] {
      assert a + b == b;
    } else {
      assert (a + b)[1..] == a[1..] + b;
      ConcatAppend(a[1..], b, lists);
    }
  }

  /** One more key draws its list last. */
  lemma ConcatSnoc(keys: seq<string>, c: string, lists: map<string, seq<Page>>)
    ensures Concat(keys + [c], lists) == Concat(keys, lists) + Items(Groups([], lists), c)
  {
    ConcatAppend(keys, [c], lists);
    assert Concat([c], lists) == Items(Groups([], lists), c) + Concat([], lists);
  }

  /** Changing the list under a key that is not walked changes nothing. */
  lemma {:induction false} ConcatFrame(keys: seq<string>, lists: map<string, seq<Page>>, c: string, l: seq<Page>)
    requires c !in keys
    ensures Concat(keys, lists[c := l]) == Concat(keys, lists)
  {
    if keys != [] {
      ConcatFrame(keys[1..], lists, c, l);
    }
  }

  /** When the result's category is new or the last key, pushing draws it
      after everything already drawn, and its category is the last key. */
  lemma PushAtEnd(g: Groups, p: Page)
    requires WellKeyed(g)
    requires p.category !in g.lists || (g.keys != [] && g.keys[|g.keys| - 1] == p.category)
    ensures Flatten(Push(g, p)) == Flatten(g) + [p]
    ensures |Push(g, p).keys| > 0 && Push(g, p).keys[|Push(g, p).keys| - 1] == p.category
  {
    if p.category !in g.lists {
      PushNewAtEnd(g, p);
    } else {
      PushLastAtEnd(g, p);
    }
  }

  lemma PushNewAtEnd(g: Groups, p: Page)
    requires WellKeyed(g) && p.category !in g.lists
    ensures Flatten(Push(g, p)) == Flatten(g) + [p]
  {
    var c := p.category;
    var l := g.lists[c := [p]];
    assert Push(g, p) == Groups(g.keys + [c], l);
    ConcatAppend(g.keys, [c], l);
    ConcatFrame(g.keys, g.lists, c, [p]);
    assert Concat([c], l) == [p] + Concat([], l);
  }

  lemma PushLastAtEnd(g: Groups, p: Page)
    requires WellKeyed(g) && g.keys != [] && g.keys[|g.keys| - 1] == p.category
    ensures Flatten(Push(g, p)) == Flatten(g) + [p]
  {
    var c := p.category;
    var init := g.keys[..|g.keys| - 1];
    var l := g.lists[c := g.lists[c] + [p]];
    assert g.keys == init + [c];
    LastKeyNotBefore(g);
    ConcatSnoc(init, c, l);
    ConcatSnoc(init, c, g.lists);
    ConcatFrame(init, g.lists, c, g.lists[c] + [p]);
    var front := Concat(init, g.lists);
    assert Flatten(Push(g, p)) == front + (g.lists[c] + [p]);
  }

  /** The last key of a well-keyed group occurs nowhere before. */
  lemma LastKeyNotBefore(g: Groups)
    requires WellKeyed(g) && g.keys != []
    ensures g.keys[|g.keys| - 1] !in g.keys[..|g.keys| - 1]
  {
    var n := |g.keys|;
    var init := g.keys[..n - 1];
    forall i | 0 <= i < |init|
      ensures init[i] != g.keys[n - 1]
    {
      assert init[i] == g.keys[i];
    }
  }

  /** A prefix of contiguous results is contiguous. */
  lemma ContiguousInit(rs: seq<Page>)
    requires Contiguous(rs) && rs != []
    ensures Contiguous(rs[..|rs| - 1])
  {
  }

  /** In contiguous results, a category that differs from the one before
      the last result does not occur before the last result either. */
  lemma ContiguousNewCategory(rs: seq<Page>)
    requires Contiguous(rs) && |rs| >= 2
    requires rs[|rs| - 2].category != rs[|rs| - 1].category
    ensures !Occurs(rs[..|rs| - 1], rs[|rs| - 1].category)
  {
    var init := rs[..|rs| - 1];
    forall k | 0 <= k < |init|
      ensures init[k].category != rs[|rs| - 1].category
    {
      assert init[k] == rs[k];
    }
  }

  /** For results whose categories are contiguous, the groups are drawn in
      exactly the results' order, and the last key is the last result's
      category. */
  lemma {:induction false} ContiguousGroupsKeepOrder(rs: seq<Page>)
    requires Contiguous(rs)
    ensures Flatten(Grouped(rs)) == rs
    ensures rs != [] ==> |Grouped(rs).keys| > 0 && Grouped(rs).keys[|Grouped(rs).keys| - 1] == rs[|rs| - 1].category
    decreases |rs|
  {
    if rs != [] {
      var init := rs[..|rs| - 1];
      var p := rs[|rs| - 1];
      assert rs == init + [p];
      ContiguousInit(rs);
      ContiguousGroupsKeepOrder(init);
      ContiguousStep(init, p);
    }
  }

  /** The inductive step: a result that continues the last category or
      opens a new one is drawn last. */
  lemma ContiguousStep(init: seq<Page>, p: Page)
    requires Contiguous(init + [p])
    requires Flatten(Grouped(init)) == init
    requires init != [] ==> |Grouped(init).keys| > 0 && Grouped(init).keys[|Grouped(init).keys| - 1] == init[|init| - 1].category
    ensures Flatten(Grouped(init + [p])) == init + [p]
    ensures |Grouped(init + [p]).keys| > 0 && Grouped(init + [p]).keys[|Grouped(init + [p]).keys| - 1] == p.category
  {
    var rs := init + [p];
    assert init == rs[..|rs| - 1];
    ReduceSnoc(NoGroups, init, p);
    assert WellKeyed(NoGroups);
    ReduceItems(NoGroups, init, p.category);
    if init != [] && init[|init| - 1].category != p.category {
      ContiguousNewCategory(rs);
    }
    PushAtEnd(Grouped(init), p);
  }

  /** With results whose categories are contiguous, the highlighted row is
      the result Enter opens: the n-th row drawn is `results[n]`. */
  lemma HighlightMatchesEnter(s: State)
    requires Contiguous(s.results)
    requires 0 <= s.selected < |s.results|
    ensures Flatten(Grouped(s.results)) == s.results
    ensures Flatten(Grouped(s.results))[s.selected] == s.results[s.selected]
    ensures KeyDown(s, "Enter").1 == Navigate(Flatten(Grouped(s.results))[s.selected].path)
  {
    ContiguousGroupsKeepOrder(s.results);
  }

  /** Deleting results never interrupts a category. */
  lemma SubsequenceContiguous(a: seq<Page>, b: seq<Page>)
    requires IsSubsequence(a, b) && Contiguous(b)
    ensures Contiguous(a)
  {
    var f := SubsequencePositions(a, b);
    forall i, j, k | 0 <= i < k < j < |a| && a[i].category == a[j].category
      ensures a[k].category == a[i].category
    {
      assert f[i] < f[k] < f[j];
    }
  }

  /** Over a page list whose categories are contiguous, as the site's are,
      the row a search highlights is the result Enter opens. */
  lemma SearchThenEnter(s: State, pages: seq<Page>, value: string, lower: string -> string)
    requires Contiguous(pages)
    requires var r := InputChange(s, pages, value, lower); 0 <= r.selected < |r.results|
    ensures var r := InputChange(s, pages, value, lower);
            && Flatten(Grouped(r.results)) == r.results
            && KeyDown(r, "Enter").1 == Navigate(Flatten(Grouped(r.results))[r.selected].path)
  {
    var r := InputChange(s, pages, value, lower);
    SearchKeepsPageOrder(s, pages, value, lower);
    SubsequenceContiguous(r.results, pages);
    HighlightMatchesEnter(r);
  }

  /** The grouping of three results is three pushes. */
  lemma GroupedThree(a: Page, b: Page, c: Page)
    ensures Grouped([a, b, c]) == Push(Push(Push(NoGroups, a), b), c)
  {
    var g1 := Push(NoGroups, a);
    var g2 := Push(g1, b);
    var g3 := Push(g2, c);
    assert [a, b, c][1..] == [b, c] && [b, c][1..] == [c] && [c][1..] == [];
    assert Reduce(g2, [c]) == Reduce(g3, []) == g3;
    assert Reduce(g1, [b, c]) == Reduce(g2, [c]);
    assert Reduce(NoGroups, [a, b, c]) == Reduce(g1, [b, c]);
  }

  /** The first push opens the first category. */
  lemma PushFirst(a: Page)
    ensures Push(NoGroups, a) == Groups([a.category], map[a.category := [a]])
  {
  }

  /** A result of another category opens a second list. */
  lemma PushSecond(a: Page, b: Page)
    requires b.category != a.category
    ensures Push(Groups([a.category], map[a.category := [a]]), b)
            == Groups([a.category, b.category], map[a.category := [a]][b.category := [b]])
  {
  }

  /** A third result of the first category joins the first list. */
  lemma PushThird(a: Page, b: Page, c: Page)
    requires a.category == c.category && b.category != a.category
    ensures Push(Groups([a.category, b.category], map[a.category := [a]][b.category := [b]]), c)
            == Groups([a.category, b.category], map[a.category := [a]][b.category := [b]][a.category := [a] + [c]])
  {
  }

  /** With interleaved categories the drawing order differs from the
      results' order: the second row drawn is not the second result. */
  lemma InterleavedCategoriesReorder(a: Page, b: Page, c: Page)
    requires a.category == c.category && b.category != a.category && b != c
    ensures Flatten(Grouped([a, b, c])) == [a, c, b]
    ensures Flatten(Grouped([a, b, c]))[1] != [a, b, c][1]
  {
    var x, y := a.category, b.category;
    GroupedThree(a, b, c);
    PushFirst(a);
    PushSecond(a, b);
    PushThird(a, b, c);
    var g3 := Grouped([a, b, c]);
    assert g3 == Groups([x, y], map[x := [a]][y := [b]][x := [a] + [c]]);
    assert [x, y][1..] == [y] && [y][1..] == [];
    assert Concat([y], g3.lists) == [b] + Concat([], g3.lists);
    assert Flatten(g3) == [a, c] + [b];
  }
}
