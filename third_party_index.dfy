/** Substring search over the third-party documentation index
    (jc/third_party_index.py). The index file is read by the caller: a
    missing or corrupt file is the empty list. Resolving a relative path
    against the repository root goes through the file system and is a
    parameter. */
module ThirdPartyIndex {
  import opened Wrappers
  import opened Text
  import Sorting

  /** One index item; an absent "content" key reads as "". */
  datatype Item = Item(name: Option<string>, path: Option<string>, content: string)

  datatype Hit = Hit(name: Option<string>, path: string, score: int)

  /** `load_index`: the parsed file, or [] when it is missing or corrupt. */
  function LoadIndex(parsed: Option<seq<Item>>): (items: seq<Item>)
    ensures parsed.None? ==> items == []
  {
    if parsed.Some? then parsed.value else []
  }

  /** The query as searched: lower-cased, then stripped. */
  function NormalizeQuery(q: string): string {
    Strip(Lower(q))
  }

  /** Non-overlapping occurrences of the query in the lower-cased content. */
  function Score(item: Item, q: string): nat {
    Count(Lower(item.content), q)
  }

  /** The reported path: "" without one, an absolute one as it stands and a
      relative one resolved against the repository root. */
  function HitPath(path: Option<string>, resolve: string -> string): string {
    if path.None? || path.value == [] then ""
    else if path.value[0] == '/' then path.value
    else resolve(path.value)
  }

  function HitOf(item: Item, q: string, resolve: string -> string): Hit {
    Hit(item.name, HitPath(item.path, resolve), Score(item, q))
  }

  /** The hits of the loop, in index order. */
  function Hits(items: seq<Item>, q: string, resolve: string -> string): (r: seq<Hit>)
    ensures |r| <= |items|
  {
    if items == [] then []
    else
      var last := items[|items| - 1];
      Hits(items[..|items| - 1], q, resolve) + (if Score(last, q) > 0 then [HitOf(last, q, resolve)] else [])
  }

  function NegScore(h: Hit): int {
    -h.score
  }

  /** `search(q)`: the hits sorted by score, highest first; the sort is stable. */
  function SearchSpec(items: seq<Item>, query: string, resolve: string -> string): seq<Hit> {
    Sorting.SortBy(Hits(items, NormalizeQuery(query), resolve), NegScore)
  }

  /** The hits are exactly the items with a positive score, each with its score. */
  lemma {:induction false} HitsAreScoredItems(items: seq<Item>, q: string, resolve: string -> string)
    ensures forall h :: h in Hits(items, q, resolve) <==>
                          exists i :: 0 <= i < |items| && Score(items[i], q) > 0 && h == HitOf(items[i], q, resolve)
    ensures forall h :: h in Hits(items, q, resolve) ==> h.score > 0
  {
    if items != [] {
      var init := items[..|items| - 1];
      HitsAreScoredItems(init, q, resolve);
      assert forall i :: 0 <= i < |init| ==> init[i] == items[i];
    }
  }

  /** The results are the hits of positive score, reordered so that scores
      never increase, with hits of equal score in index order. */
  lemma SearchPromises(items: seq<Item>, query: string, resolve: string -> string, score: int)
    ensures var r := SearchSpec(items, query, resolve);
            var hits := Hits(items, NormalizeQuery(query), resolve);
            multiset(r) == multiset(hits) &&
            (forall i, j :: 0 <= i < j < |r| ==> r[i].score >= r[j].score) &&
            (forall h :: h in r ==> h.score > 0) &&
            Sorting.WithKey(r, NegScore, -score) == Sorting.WithKey(hits, NegScore, -score)
  {
    SearchOrdered(items, query, resolve);
    SearchStable(items, query, resolve, score);
  }

  /** Hits of equal score keep their index order. */
  lemma SearchStable(items: seq<Item>, query: string, resolve: string -> string, score: int)
    ensures Sorting.WithKey(SearchSpec(items, query, resolve), NegScore, -score) ==
              Sorting.WithKey(Hits(items, NormalizeQuery(query), resolve), NegScore, -score)
  {
    StableByScore(Hits(items, NormalizeQuery(query), resolve), SearchSpec(items, query, resolve), score);
  }

  lemma StableByScore(hits: seq<Hit>, r: seq<Hit>, score: int)
    requires r == Sorting.SortBy(hits, NegScore)
    ensures Sorting.WithKey(r, NegScore, -score) == Sorting.WithKey(hits, NegScore, -score)
  {
    Sorting.SortByStable(hits, NegScore, -score);
  }

  /** The results are the hits, in non-increasing score order, all positive. */
  lemma SearchOrdered(items: seq<Item>, query: string, resolve: string -> string)
    ensures var r := SearchSpec(items, query, resolve);
            multiset(r) == multiset(Hits(items, NormalizeQuery(query), resolve)) &&
            (forall i, j :: 0 <= i < j < |r| ==> r[i].score >= r[j].score) &&
            (forall h :: h in r ==> h.score > 0)
  {
    var hits := Hits(items, NormalizeQuery(query), resolve);
    var r := Sorting.SortBy(hits, NegScore);
    HitsAreScoredItems(items, NormalizeQuery(query), resolve);
    forall i, j | 0 <= i < j < |r|
      ensures r[i].score >= r[j].score
    {
      assert NegScore(r[i]) <= NegScore(r[j]);
    }
    forall h | h in r
      ensures h.score > 0
    {
      assert h in multiset(r);
      assert h in hits;
    }
  }

  /** A blank query becomes "", which occurs `len(content) + 1` times in
      every item: every item is a hit, scored by its length plus one. */
  lemma BlankQueryMatchesEverything(items: seq<Item>, query: string, resolve: string -> string)
    requires IsBlank(query)
    ensures Hits(items, NormalizeQuery(query), resolve) ==
              seq(|items|, i requires 0 <= i < |items| => Hit(items[i].name, HitPath(items[i].path, resolve), |items[i].content| + 1))
  {
    BlankQueryIsEmpty(query);
    BlankHits(items, resolve);
  }

  lemma BlankQueryIsEmpty(query: string)
    requires IsBlank(query)
    ensures NormalizeQuery(query) == ""
  {
    var l := Lower(query);
    assert IsBlank(l) by {
      forall i | 0 <= i < |l| ensures IsSpace(l[i]) {
        assert IsSpace(query[i]);
      }
    }
    StripEmptyIffBlank(l);
  }

  lemma {:induction false} BlankHits(items: seq<Item>, resolve: string -> string)
    ensures Hits(items, "", resolve) ==
              seq(|items|, i requires 0 <= i < |items| => Hit(items[i].name, HitPath(items[i].path, resolve), |items[i].content| + 1))
  {
    if items != [] {
      BlankHits(items[..|items| - 1], resolve);
    }
  }

  /** `search`: the loop appending hits, then the sort. */
  method Search(parsed: Option<seq<Item>>, query: string, resolve: string -> string) returns (results: seq<Hit>)
    ensures results == SearchSpec(LoadIndex(parsed), query, resolve)
  {
    var q := NormalizeQuery(query);
    var items := LoadIndex(parsed);
    var hits: seq<Hit> := [];
    var i := 0;
    while i < |items|
      invariant 0 <= i <= |items|
      invariant hits == Hits(items[..i], q, resolve)
    {
      assert items[..i + 1][..i] == items[..i];
      var cnt := Count(Lower(items[i].content), q);
      if cnt > 0 {
        hits := hits + [Hit(items[i].name, HitPath(items[i].path, resolve), cnt)];
      }
      i := i + 1;
    }
    assert items[..i] == items;
    results := Sorting.SortBy(hits, NegScore);
  }
}
