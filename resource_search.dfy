/** The search and category filter of the server-backed resources page, and
    the list of distinct categories shown in its drop-down. */
module ResourceSearch {
  import opened Text
  import opened Seqs

  const All: string := "all"

  /** A row of the `resources` table, reduced to the fields the filter reads. */
  datatype Resource = Resource(id: int, title: string, description: string, category: string)

  /** `matchesSearch`: the lowered query occurs in the lowered title or description. */
  predicate MatchesSearch(r: Resource, query: string) {
    Includes(ToLower(r.title), ToLower(query)) || Includes(ToLower(r.description), ToLower(query))
  }

  /** `matchesCategory`: 'all' is selected, or the resource is in the selected category. */
  predicate MatchesCategory(r: Resource, selected: string) {
    selected == All || r.category == selected
  }

  predicate Shown(r: Resource, query: string, selected: string) {
    MatchesSearch(r, query) && MatchesCategory(r, selected)
  }

  /** `filteredResources`: the resources that match both the search and the category. */
  function FilterResources(rs: seq<Resource>, query: string, selected: string): (out: seq<Resource>)
    ensures forall r :: r in out <==> r in rs && Shown(r, query, selected)
    ensures IsSubsequence(out, rs)
    ensures |out| <= |rs|
    ensures forall r :: multiset(out)[r] == if Shown(r, query, selected) then multiset(rs)[r] else 0
  {
    if rs == [] then []
    else
      assert rs == [rs[0]] + rs[1..];
      if Shown(rs[0], query, selected) then [rs[0]] + FilterResources(rs[1..], query, selected)
      else FilterResources(rs[1..], query, selected)
  }

  /** An empty query with 'all' selected shows every resource. */
  lemma {:induction false} EmptyQueryShowsAll(rs: seq<Resource>)
    ensures FilterResources(rs, "", All) == rs
  {
    if rs != [] {
      IncludesEmpty(ToLower(rs[0].title));
      EmptyQueryShowsAll(rs[1..]);
    }
  }

  /** Filtering the filtered list again with the same inputs changes nothing. */
  lemma {:induction false} FilterIdempotent(rs: seq<Resource>, query: string, selected: string)
    ensures FilterResources(FilterResources(rs, query, selected), query, selected)
            == FilterResources(rs, query, selected)
  {
    if rs != [] {
      FilterIdempotent(rs[1..], query, selected);
    }
  }

  /** With a specific category selected, everything shown is in that category. */
  lemma CategorySelected(rs: seq<Resource>, query: string, selected: string)
    requires selected != All
    ensures forall r :: r in FilterResources(rs, query, selected) ==> r.category == selected
  {
  }

  function Categories(rs: seq<Resource>): (cs: seq<string>)
    ensures |cs| == |rs|
    ensures forall i :: 0 <= i < |rs| ==> cs[i] == rs[i].category
  {
    seq(|rs|, i requires 0 <= i < |rs| => rs[i].category)
  }

  /** `categories`: the distinct categories of the fetched resources. */
  function UniqueCategories(rs: seq<Resource>): (cs: seq<string>)
    ensures Distinct(cs)
    ensures forall c :: c in cs <==> exists r :: r in rs && r.category == c
  {
    var all := Categories(rs);
    DedupCorrect(all);
    assert forall r :: r in rs ==> r.category in all;
    Dedup(all)
  }
}
