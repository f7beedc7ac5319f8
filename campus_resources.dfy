/** The resources page of the standalone dashboard: the same search and category
    filter, applied to a fixed list of five campus resources. */
module CampusResources {
  import opened Text
  import ResourceSearch
  import Seqs

  type Resource = ResourceSearch.Resource

  /** The fixed resource list (title, description and category are what the filter reads). */
  const Resources: seq<Resource> := [
    ResourceSearch.Resource(1, "Counseling Services",
      "24/7 confidential counseling support for students", "mental-health"),
    ResourceSearch.Resource(2, "Fitness Center",
      "State-of-the-art fitness facilities and equipment", "physical"),
    ResourceSearch.Resource(3, "Meditation Room",
      "Quiet space for meditation and mindfulness", "mental-health"),
    ResourceSearch.Resource(4, "Nutrition Counseling",
      "Professional nutrition advice and meal planning", "physical"),
    ResourceSearch.Resource(5, "Student Support Groups",
      "Peer support groups for various concerns", "social")
  ]

  /** The category buttons; 'all' shows every category. */
  const CategoryIds: seq<string> := ["all", "mental-health", "physical", "social"]

  /** This page tests the category first, then the search text. */
  predicate Matches(r: Resource, selected: string, query: string) {
    && (selected == "all" || r.category == selected)
    && (Includes(ToLower(r.title), ToLower(query)) || Includes(ToLower(r.description), ToLower(query)))
  }

  function FilterCatalog(rs: seq<Resource>, selected: string, query: string): (out: seq<Resource>)
    ensures forall r :: r in out <==> r in rs && Matches(r, selected, query)
    ensures Seqs.IsSubsequence(out, rs)
  {
    if rs == [] then []
    else if Matches(rs[0], selected, query) then [rs[0]] + FilterCatalog(rs[1..], selected, query)
    else FilterCatalog(rs[1..], selected, query)
  }

  /** `filteredResources` over the fixed list. */
  function FilteredResources(selected: string, query: string): (out: seq<Resource>)
    ensures forall r :: r in out <==> r in Resources && Matches(r, selected, query)
    ensures Seqs.IsSubsequence(out, Resources)
  {
    FilterCatalog(Resources, selected, query)
  }

  /** On any list, this page's filter and the server-backed page's filter agree. */
  lemma {:induction false} AgreesWithSearchPage(rs: seq<Resource>, selected: string, query: string)
    ensures FilterCatalog(rs, selected, query) == ResourceSearch.FilterResources(rs, query, selected)
  {
    if rs != [] {
      AgreesWithSearchPage(rs[1..], selected, query);
    }
  }

  /** A matching resource is listed as many times as the list holds it, and any other
      resource not at all. */
  lemma FilterCatalogKeepsCopies(rs: seq<Resource>, selected: string, query: string)
    ensures forall r :: multiset(FilterCatalog(rs, selected, query))[r] ==
                          if Matches(r, selected, query) then multiset(rs)[r] else 0
  {
    AgreesWithSearchPage(rs, selected, query);
  }

  function Ids(rs: seq<Resource>): (ids: seq<int>)
    ensures |ids| == |rs|
    ensures forall i :: 0 <= i < |rs| ==> ids[i] == rs[i].id
  {
    seq(|rs|, i requires 0 <= i < |rs| => rs[i].id)
  }

  /** An empty search with 'mental-health' selected lists resources 1 and 3, in that order. */
  lemma MentalHealthListing()
    ensures Ids(FilteredResources("mental-health", "")) == [1, 3]
  {
    var rs := Resources;
    IncludesEmpty(ToLower(rs[0].title));
    IncludesEmpty(ToLower(rs[2].title));
    assert FilterCatalog(rs[4..], "mental-health", "") == [] by {
      assert rs[4..][1..] == [];
    }
    assert FilterCatalog(rs[3..], "mental-health", "") == [] by {
      assert rs[3..][1..] == rs[4..];
    }
    assert FilterCatalog(rs[2..], "mental-health", "") == [rs[2]] by {
      assert rs[2..][1..] == rs[3..];
    }
    assert FilterCatalog(rs[1..], "mental-health", "") == [rs[2]] by {
      assert rs[1..][1..] == rs[2..];
    }
    assert FilterCatalog(rs, "mental-health", "") == [rs[0], rs[2]];
  }

  /** Matching ignores case: the query 'FITNESS' finds the 'Fitness Center'. */
  lemma QueryIgnoresCase()
    ensures Resources[1] in FilteredResources("all", "FITNESS")
  {
    var title := ToLower(Resources[1].title);
    assert ToLower("FITNESS") == "fitness";
    assert title[..7] == "fitness";
    assert IsPrefix("fitness", title);
  }
}
