/**
 * The selection page's list filter: keep the items whose title contains the
 * search term (ignoring case), then apply the length category chosen in the
 * filter bar: ayah counts for surahs, the `length` label for duas.
 */
module SelectionFilter {
  import opened Wrappers

  /** A list item as the filter sees it: a surah's metadata or a dua's summary. */
  datatype Item = Item(title: Option<string>, totalAyahs: Option<int>, length: Option<string>)

  // ---------------------------------------------------------------------------
  // Strings
  // ---------------------------------------------------------------------------

  /** `toLowerCase` on one character, for the ASCII letters. */
  function LowerChar(c: char): char {
    if 'A' <= c <= 'Z' then (c as int + 32) as char else c
  }

  function Lower(s: string): (r: string)
    ensures |r| == |s|
    ensures forall i :: 0 <= i < |s| ==> r[i] == LowerChar(s[i])
  {
    seq(|s|, i requires 0 <= i < |s| => LowerChar(s[i]))
  }

  /** Lower-casing twice is lower-casing once. */
  lemma LowerIdempotent(s: string)
    ensures Lower(Lower(s)) == Lower(s)
  {
  }

  /** `sub` occurs in `s` starting at position i. */
  predicate OccursAt(s: string, sub: string, i: int) {
    0 <= i && i + |sub| <= |s| && s[i..i + |sub|] == sub
  }

  /** `s.includes(sub)`, scanning from the left. */
  function Contains(s: string, sub: string): bool
    decreases |s|
  {
    if |sub| > |s| then false
    else if s[..|sub|] == sub then true
    else Contains(s[1..], sub)
  }

  /** The scan finds `sub` exactly when it occurs somewhere in `s`. */
  lemma {:induction false} ContainsIff(s: string, sub: string)
    ensures Contains(s, sub) <==> exists i :: OccursAt(s, sub, i)
    decreases |s|
  {
    if |sub| > |s| {
    } else if s[..|sub|] == sub {
      assert OccursAt(s, sub, 0);
    } else {
      ContainsIff(s[1..], sub);
      if exists i :: OccursAt(s[1..], sub, i) {
        var i :| OccursAt(s[1..], sub, i);
        assert s[i + 1..i + 1 + |sub|] == s[1..][i..i + |sub|];
        assert OccursAt(s, sub, i + 1);
      }
      if exists i :: OccursAt(s, sub, i) {
        var i :| OccursAt(s, sub, i);
        assert i != 0;
        assert s[1..][i - 1..i - 1 + |sub|] == s[i..i + |sub|];
        assert OccursAt(s[1..], sub, i - 1);
      }
    }
  }

  /** Every string contains the empty string. */
  lemma ContainsEmpty(s: string)
    ensures Contains(s, "")
  {
  }

  // ---------------------------------------------------------------------------
  // The filter
  // ---------------------------------------------------------------------------

  /** `item.title?.toLowerCase().includes(searchTerm.toLowerCase())`: an item without a title never matches. */
  predicate TitleMatch(item: Item, searchTerm: string) {
    item.title.Some? && Contains(Lower(item.title.value), Lower(searchTerm))
  }

  /** `item.totalAyahs || 0`. */
  function AyahCount(item: Item): int {
    if item.totalAyahs.Some? && item.totalAyahs.value != 0 then item.totalAyahs.value else 0
  }

  /** The length category test that follows a title match. */
  predicate CategoryOk(item: Item, ctype: string, filter: string) {
    if filter == "all" then true
    else if ctype == "quran" then
      var n := AyahCount(item);
      if filter == "short" then 0 < n <= 20
      else if filter == "medium" then 20 < n <= 100
      else if filter == "long" then n > 100
      else true
    else if ctype == "dua" then
      if filter == "short" then item.length == Some("Short")
      else if filter == "medium" then item.length == Some("Medium")
      else if filter == "long" then item.length == Some("Long") || item.length == Some("Very Long")
      else true
    else true
  }

  predicate Keep(item: Item, ctype: string, searchTerm: string, filter: string) {
    TitleMatch(item, searchTerm) && CategoryOk(item, ctype, filter)
  }

  /** `filterContent(items, type)` with the page's current search term and filter. */
  function FilterContent(items: seq<Item>, ctype: string, searchTerm: string, filter: string): (r: seq<Item>)
    ensures |r| <= |items|
    ensures forall x :: x in r <==> x in items && Keep(x, ctype, searchTerm, filter)
    decreases |items|
  {
    if items == [] then []
    else
      var rest := FilterContent(items[1..], ctype, searchTerm, filter);
      assert forall x :: x in items <==> x == items[0] || x in items[1..];
      if Keep(items[0], ctype, searchTerm, filter) then [items[0]] + rest else rest
  }

  /** xs is ys with some elements dropped, the rest in their original order. */
  predicate SubsequenceOf(xs: seq<Item>, ys: seq<Item>)
    decreases |ys|
  {
    if xs == [] then true
    else if ys == [] then false
    else (xs[0] == ys[0] && SubsequenceOf(xs[1..], ys[1..])) || SubsequenceOf(xs, ys[1..])
  }

  /** The filter keeps the input's order. */
  lemma {:induction false} FilterIsSubsequence(items: seq<Item>, ctype: string, searchTerm: string, filter: string)
    ensures SubsequenceOf(FilterContent(items, ctype, searchTerm, filter), items)
    decreases |items|
  {
    if items != [] {
      FilterIsSubsequence(items[1..], ctype, searchTerm, filter);
      var rest := FilterContent(items[1..], ctype, searchTerm, filter);
      if Keep(items[0], ctype, searchTerm, filter) {
        assert ([items[0]] + rest)[1..] == rest;
      }
    }
  }

  /** The filter keeps exactly as many copies of each item as the input has, when it keeps it at all. */
  lemma {:induction false} FilterCounts(items: seq<Item>, ctype: string, searchTerm: string, filter: string, x: Item)
    ensures multiset(FilterContent(items, ctype, searchTerm, filter))[x] ==
      if Keep(x, ctype, searchTerm, filter) then multiset(items)[x] else 0
    decreases |items|
  {
    if items != [] {
      FilterCounts(items[1..], ctype, searchTerm, filter, x);
      assert items == [items[0]] + items[1..];
    }
  }

  /** With the filter 'all', an item is kept exactly when its title matches. */
  lemma AllKeepsTitleMatches(items: seq<Item>, ctype: string, searchTerm: string)
    ensures forall x :: x in FilterContent(items, ctype, searchTerm, "all") <==> x in items && TitleMatch(x, searchTerm)
  {
  }

  /** With the filter 'all' and an empty search term, every item with a title is kept. */
  lemma EmptySearchKeepsTitled(items: seq<Item>, ctype: string)
    ensures forall x :: x in FilterContent(items, ctype, "", "all") <==> x in items && x.title.Some?
  {
    forall x | x in items && x.title.Some?
      ensures TitleMatch(x, "")
    {
      ContainsEmpty(Lower(x.title.value));
    }
  }

  /** A filter value the page has no rule for behaves like 'all'. */
  lemma {:induction false} UnknownFilterIsAll(items: seq<Item>, ctype: string, searchTerm: string, filter: string)
    requires filter !in {"all", "short", "medium", "long"}
    ensures FilterContent(items, ctype, searchTerm, filter) == FilterContent(items, ctype, searchTerm, "all")
    decreases |items|
  {
    if items != [] {
      UnknownFilterIsAll(items[1..], ctype, searchTerm, filter);
    }
  }

  /** The surah length categories do not overlap, and a surah counted as 0 ayahs is in none of them. */
  lemma QuranCategoriesDisjoint(item: Item)
    ensures !(CategoryOk(item, "quran", "short") && CategoryOk(item, "quran", "medium"))
    ensures !(CategoryOk(item, "quran", "short") && CategoryOk(item, "quran", "long"))
    ensures !(CategoryOk(item, "quran", "medium") && CategoryOk(item, "quran", "long"))
    ensures AyahCount(item) == 0 ==>
      !CategoryOk(item, "quran", "short") && !CategoryOk(item, "quran", "medium") && !CategoryOk(item, "quran", "long")
    ensures AyahCount(item) > 0 ==>
      CategoryOk(item, "quran", "short") || CategoryOk(item, "quran", "medium") || CategoryOk(item, "quran", "long")
  {
  }

  /** The title test ignores the case of both the title and the search term. */
  lemma TitleMatchIgnoresCase(item: Item, searchTerm: string)
    requires item.title.Some?
    ensures TitleMatch(item, searchTerm) == TitleMatch(item.(title := Some(Lower(item.title.value))), Lower(searchTerm))
  {
    LowerIdempotent(item.title.value);
    LowerIdempotent(searchTerm);
  }
}
