/** The menu screen's derived lists (src/pages/MenuManagement.tsx): the
    category tabs and the items that match the search box and the selected
    tab. The waiter screen builds its category tabs with the same expression
    and reuses `CategoryTabs` and `MatchesCategory` from here. */
module MenuManagement {
  import opened Types
  import opened Seqs

  // Category tabs

  predicate NoDuplicates(s: seq<string>)
  {
    forall i, j :: 0 <= i < j < |s| ==> s[i] != s[j]
  }

  /** `i` is where `x` first appears in `s`. */
  predicate FirstAt(s: seq<string>, x: string, i: int)
  {
    0 <= i < |s| && s[i] == x && forall k :: 0 <= k < i ==> s[k] != x
  }

  /** `Array.from(new Set(s))`: each value once, in order of first appearance. */
  function Distinct(s: seq<string>): (r: seq<string>)
    ensures NoDuplicates(r)
    ensures forall x :: x in r <==> x in s
  {
    if s == [] then []
    else
      var r := Distinct(s[..|s| - 1]);
      if s[|s| - 1] in r then r else r + [s[|s| - 1]]
  }

  /** The values of `Distinct(s)` come in the order in which they first appear in `s`. */
  lemma {:induction false} DistinctFirstAppearanceOrder(s: seq<string>)
    ensures forall i, j, a, b ::
      (0 <= i < j < |Distinct(s)| && FirstAt(s, Distinct(s)[i], a) && FirstAt(s, Distinct(s)[j], b)) ==> a < b
  {
    if s != [] {
      var init := s[..|s| - 1];
      var last := s[|s| - 1];
      DistinctFirstAppearanceOrder(init);
      var r := Distinct(init);
      forall i, j, a, b | 0 <= i < j < |Distinct(s)| &&
        FirstAt(s, Distinct(s)[i], a) && FirstAt(s, Distinct(s)[j], b)
        ensures a < b
      {
        var d := Distinct(s);
        assert d[i] in r by {
          assert i < |r|;
        }
        FirstAtInPrefix(s, d[i], a);
        if j < |r| {
          FirstAtInPrefix(s, d[j], b);
        } else {
          assert d[j] == last && last !in r;
          assert last !in init;
        }
      }
    }
  }

  /** A value that already occurs before the last position first appears at the
      same place in `s` as in `s` without its last element. */
  lemma FirstAtInPrefix(s: seq<string>, x: string, a: int)
    requires s != [] && x in s[..|s| - 1] && FirstAt(s, x, a)
    ensures a < |s| - 1 && FirstAt(s[..|s| - 1], x, a)
  {
    var init := s[..|s| - 1];
    var w :| 0 <= w < |init| && init[w] == x;
    assert a <= w;
  }

  function CategoriesOf(items: seq<MenuItem>): (cs: seq<string>)
    ensures |cs| == |items| && forall k :: 0 <= k < |items| ==> cs[k] == items[k].category
  {
    seq(|items|, k requires 0 <= k < |items| => items[k].category)
  }

  /** `['All', ...distinct categories]`. */
  function CategoryTabs(items: seq<MenuItem>): (tabs: seq<string>)
    ensures |tabs| >= 1 && tabs[0] == "All"
    ensures forall c :: c in tabs[1..] <==> exists k :: 0 <= k < |items| && items[k].category == c
    ensures (forall k :: 0 <= k < |items| ==> items[k].category != "All") ==> NoDuplicates(tabs)
  {
    var cs := CategoriesOf(items);
    var tabs := ["All"] + Distinct(cs);
    assert tabs[1..] == Distinct(cs);
    assert forall c :: c in cs <==> exists k :: 0 <= k < |items| && items[k].category == c;
    PrefixedNoDuplicates("All", Distinct(cs));
    tabs
  }

  lemma PrefixedNoDuplicates(x: string, s: seq<string>)
    requires NoDuplicates(s)
    ensures x !in s ==> NoDuplicates([x] + s)
  {
    if x !in s {
      var t := [x] + s;
      forall i, j | 0 <= i < j < |t| ensures t[i] != t[j] {
        assert t[j] == s[j - 1];
        if i > 0 { assert t[i] == s[i - 1]; }
      }
    }
  }

  /** `selectedCategory === 'All' || item.category === selectedCategory`. */
  predicate MatchesCategory(item: MenuItem, selected: string)
  {
    selected == "All" || item.category == selected
  }

  // Search

  /** `toLowerCase` on the letters A to Z. */
  function LowerChar(c: char): (d: char)
    ensures 'A' <= c <= 'Z' ==> d as int == c as int + 32
    ensures !('A' <= c <= 'Z') ==> d == c
  {
    if 'A' <= c <= 'Z' then (c as int + 32) as char else c
  }

  function Lower(s: string): (r: string)
    ensures |r| == |s| && forall k :: 0 <= k < |s| ==> r[k] == LowerChar(s[k])
  {
    seq(|s|, k requires 0 <= k < |s| => LowerChar(s[k]))
  }

  /** Lowercasing twice is lowercasing once. */
  lemma LowerIdempotent(s: string)
    ensures Lower(Lower(s)) == Lower(s)
  {
  }

  /** `item.name.toLowerCase().includes(searchQuery.toLowerCase())`. */
  predicate MatchesSearch(item: MenuItem, query: string)
  {
    IsInfix(Lower(query), Lower(item.name))
  }

  function Matches(query: string, selected: string): MenuItem -> bool
  {
    (item: MenuItem) => MatchesSearch(item, query) && MatchesCategory(item, selected)
  }

  /** `filteredItems`: the items that match both the search and the tab, in menu order. */
  function FilteredItems(items: seq<MenuItem>, query: string, selected: string): (r: seq<MenuItem>)
    ensures |r| <= |items|
    ensures forall x :: x in r <==> x in items && MatchesSearch(x, query) && MatchesCategory(x, selected)
  {
    Filter(items, Matches(query, selected))
  }

  /** The search ignores the case of the query. */
  lemma SearchIgnoresQueryCase(item: MenuItem, query: string)
    ensures MatchesSearch(item, query) == MatchesSearch(item, Lower(query))
  {
    LowerIdempotent(query);
  }

  /** An empty search box and the 'All' tab show the whole menu, in order. */
  lemma NoFilterShowsAll(items: seq<MenuItem>)
    ensures FilteredItems(items, "", "All") == items
  {
    forall k | 0 <= k < |items| ensures Matches("", "All")(items[k]) {
      EmptyIsInfix(Lower(items[k].name));
    }
    FilterKeepsAll(items, Matches("", "All"));
  }

  /** With an empty search box, a tab other than 'All' shows exactly the items
      whose category is that tab. */
  lemma EmptySearchFiltersByCategory(items: seq<MenuItem>, selected: string)
    requires selected != "All"
    ensures forall k :: 0 <= k < |FilteredItems(items, "", selected)| ==>
      FilteredItems(items, "", selected)[k].category == selected
    ensures forall k :: 0 <= k < |items| && items[k].category == selected ==>
      items[k] in FilteredItems(items, "", selected)
  {
    forall k | 0 <= k < |items| ensures MatchesSearch(items[k], "") {
      EmptyIsInfix(Lower(items[k].name));
    }
  }

  /** The filtered list keeps menu order: filtering distributes over any split of the menu. */
  lemma FilteredKeepsOrder(front: seq<MenuItem>, back: seq<MenuItem>, query: string, selected: string)
    ensures FilteredItems(front + back, query, selected) ==
      FilteredItems(front, query, selected) + FilteredItems(back, query, selected)
  {
    FilterConcat(front, back, Matches(query, selected));
  }
}
