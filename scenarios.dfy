/** The scenario catalogue page: the fixed catalogue, the category list offered
    by the category filter, and the search-and-filter over the catalogue. */
module Scenarios {
  import opened JsText
  import opened Sequences

  datatype Scenario = Scenario(
    id: string,
    title: string,
    description: string,
    category: string,
    difficulty: string,
    tags: seq<string>,
    patientName: string)

  /** The catalogue, in display order. */
  const Catalogue: seq<Scenario> := [
    Scenario("anxiety-disorder", "Generalized Anxiety Disorder",
      "Practice with a patient experiencing symptoms of GAD including excessive worry, restlessness, and physical symptoms.",
      "Anxiety Disorders", "Beginner", ["Anxiety", "CBT", "Assessment"], "Alex"),
    Scenario("depression", "Major Depressive Disorder",
      "Interact with a patient showing signs of depression including persistent sadness, loss of interest, and fatigue.",
      "Mood Disorders", "Intermediate", ["Depression", "Mood", "Therapy"], "Jordan"),
    Scenario("grief-counseling", "Grief Counseling",
      "Help a patient navigate the complex emotions following the loss of a loved one.",
      "Crisis Intervention", "Intermediate", ["Grief", "Loss", "Counseling"], "Morgan"),
    Scenario("relationship-conflict", "Relationship Conflict",
      "Assist a client seeking help for ongoing relationship conflicts and communication problems.",
      "Couples Therapy", "Advanced", ["Relationships", "Communication", "Conflict"], "Taylor"),
    Scenario("substance-use", "Alcohol Use Disorder",
      "Practice motivational interviewing with a patient showing signs of problematic alcohol use.",
      "Substance Use Disorders", "Advanced", ["Addiction", "Motivational Interviewing", "Assessment"], "Casey")
  ]

  /** The filter value that lets every scenario through. */
  const All := "all"

  // ---------------------------------------------------------------- categories

  /** `[...new Set(xs)]`: each element once, where it was first inserted. */
  function Distinct(xs: seq<string>): (r: seq<string>)
    ensures NoDuplicates(r)
    ensures forall x :: x in r <==> x in xs
    decreases |xs|
  {
    if xs == [] then []
    else
      var d := Distinct(xs[..|xs| - 1]);
      var x := xs[|xs| - 1];
      assert forall y :: y in xs <==> y in xs[..|xs| - 1] || y == x by {
        assert xs == xs[..|xs| - 1] + [x];
      }
      if x in d then d else d + [x]
  }

  /** The catalogue lists five scenarios with distinct ids, each at one of the
      three difficulties. */
  lemma CatalogueShape()
    ensures |Catalogue| == 5
    ensures forall i, j :: 0 <= i < j < |Catalogue| ==> Catalogue[i].id != Catalogue[j].id
    ensures NoDuplicates(Catalogue)
    ensures forall i :: 0 <= i < |Catalogue| ==> Catalogue[i].difficulty in {"Beginner", "Intermediate", "Advanced"}
  {
  }

  /** Reference reading of "first-appearance order": walk `xs` from the front
      and keep each element not seen before. */
  function FirstOccurrences(xs: seq<string>, seen: set<string>): seq<string> {
    if xs == [] then []
    else if xs[0] in seen then FirstOccurrences(xs[1..], seen)
    else [xs[0]] + FirstOccurrences(xs[1..], seen + {xs[0]})
  }

  lemma {:induction false} FirstOccurrencesSnoc(xs: seq<string>, y: string, seen: set<string>)
    ensures FirstOccurrences(xs + [y], seen) ==
      FirstOccurrences(xs, seen) + (if y in seen || y in xs then [] else [y])
    decreases |xs|
  {
    if xs == [] {
      assert [y][1..] == [];
    } else {
      assert (xs + [y])[1..] == xs[1..] + [y];
      assert y in xs <==> y == xs[0] || y in xs[1..] by { assert xs == [xs[0]] + xs[1..]; }
      if xs[0] in seen {
        FirstOccurrencesSnoc(xs[1..], y, seen);
      } else {
        FirstOccurrencesSnoc(xs[1..], y, seen + {xs[0]});
      }
    }
  }

  /** The set-insertion order of `Distinct` is first-appearance order. */
  lemma {:induction false} DistinctIsFirstOccurrences(xs: seq<string>)
    ensures Distinct(xs) == FirstOccurrences(xs, {})
    decreases |xs|
  {
    if xs != [] {
      var init, y := xs[..|xs| - 1], xs[|xs| - 1];
      assert xs == init + [y];
      DistinctIsFirstOccurrences(init);
      FirstOccurrencesSnoc(init, y, {});
    }
  }

  function CategoriesOf(list: seq<Scenario>): (r: seq<string>)
    ensures |r| == |list| && forall i :: 0 <= i < |list| ==> r[i] == list[i].category
  {
    seq(|list|, i requires 0 <= i < |list| => list[i].category)
  }

  /** `["all", ...new Set(scenarios.map(s => s.category))]`: "all" first, then
      every category of the catalogue exactly once. */
  function Categories(): (r: seq<string>)
    ensures |r| > 0 && r[0] == All
    ensures NoDuplicates(r[1..])
    ensures forall c :: c in r[1..] <==> exists i :: 0 <= i < |Catalogue| && Catalogue[i].category == c
  {
    var cs := CategoriesOf(Catalogue);
    var r := [All] + Distinct(cs);
    assert r[1..] == Distinct(cs);
    assert forall c :: c in cs ==> exists i :: 0 <= i < |Catalogue| && Catalogue[i].category == c by {
      forall c | c in cs ensures exists i :: 0 <= i < |Catalogue| && Catalogue[i].category == c {
        var i :| 0 <= i < |cs| && cs[i] == c;
        assert Catalogue[i].category == c;
      }
    }
    r
  }

  /** The distinct categories of the catalogue, in order of first appearance. */
  lemma CatalogueCategories()
    ensures Distinct(CategoriesOf(Catalogue)) == ["Anxiety Disorders", "Mood Disorders", "Crisis Intervention",
                                                  "Couples Therapy", "Substance Use Disorders"]
  {
    var cs := CategoriesOf(Catalogue);
    assert cs == ["Anxiety Disorders", "Mood Disorders", "Crisis Intervention",
                  "Couples Therapy", "Substance Use Disorders"];
    assert cs[..1] == ["Anxiety Disorders"];
    assert cs[..2] == cs[..1] + [cs[1]];
    assert cs[..3] == cs[..2] + [cs[2]];
    assert cs[..4] == cs[..3] + [cs[3]];
    assert cs[..5] == cs;
    assert Distinct(cs[..1]) == ["Anxiety Disorders"];
    assert Distinct(cs[..2]) == ["Anxiety Disorders", "Mood Disorders"];
    assert Distinct(cs[..3]) == cs[..3];
    assert Distinct(cs[..4]) == cs[..4];
  }

  /** The category filter offers "all" and then each category of the catalogue
      once, in the order of first appearance. */
  lemma CategoriesOffered()
    ensures Categories() == [All, "Anxiety Disorders", "Mood Disorders", "Crisis Intervention",
                             "Couples Therapy", "Substance Use Disorders"]
  {
    CatalogueCategories();
  }

  // ---------------------------------------------------------------- filter

  /** Some tag, lower-cased, contains the lower-cased term. */
  predicate SomeTagIncludes(tags: seq<string>, lowerTerm: string) {
    exists i :: 0 <= i < |tags| && Includes(Lower(tags[i]), lowerTerm)
  }

  /** `text`, lower-cased, contains the lower-cased `term` at some position. */
  ghost predicate Mentions(text: string, term: string) {
    exists i :: OccursAt(Lower(text), Lower(term), i)
  }

  /** The search box: title, description or some tag contains the term, ignoring case. */
  predicate MatchesSearch(s: Scenario, term: string): (b: bool)
    ensures b <==> Mentions(s.title, term) || Mentions(s.description, term) ||
                   exists j :: 0 <= j < |s.tags| && Mentions(s.tags[j], term)
  {
    var t := Lower(term);
    IncludesIff(Lower(s.title), t);
    IncludesIff(Lower(s.description), t);
    assert forall j :: 0 <= j < |s.tags| ==> (Includes(Lower(s.tags[j]), t) <==> Mentions(s.tags[j], term)) by {
      forall j | 0 <= j < |s.tags| {
        IncludesIff(Lower(s.tags[j]), t);
      }
    }
    Includes(Lower(s.title), t) || Includes(Lower(s.description), t) || SomeTagIncludes(s.tags, t)
  }

  /** A select filter: "all" or an exact match. */
  predicate MatchesFilter(value: string, filter: string) {
    filter == All || value == filter
  }

  /** The filter callback: the search and both select filters pass. With the
      page's initial state every scenario passes; a chosen difficulty or
      category excludes every scenario with another one. */
  predicate Keep(s: Scenario, term: string, difficultyFilter: string, categoryFilter: string): (b: bool)
    ensures term == "" && difficultyFilter == All && categoryFilter == All ==> b
    ensures difficultyFilter != All && s.difficulty != difficultyFilter ==> !b
    ensures categoryFilter != All && s.category != categoryFilter ==> !b
    ensures b ==> MatchesSearch(s, term)
  {
    EmptyTermMatches(s);
    MatchesSearch(s, term) && MatchesFilter(s.difficulty, difficultyFilter) &&
    MatchesFilter(s.category, categoryFilter)
  }

  /** `list.filter(...)`: the scenarios that pass all three tests, in list order. */
  function FilterScenarios(list: seq<Scenario>, term: string, difficultyFilter: string, categoryFilter: string): (r: seq<Scenario>)
    ensures Subsequence(r, list)
  {
    if list == [] then []
    else
      var rest := FilterScenarios(list[1..], term, difficultyFilter, categoryFilter);
      if Keep(list[0], term, difficultyFilter, categoryFilter) then
        assert ([list[0]] + rest)[1..] == rest;
        [list[0]] + rest
      else
        rest
  }

  /** A scenario is in the result exactly when it is in the list and passes the
      search, the difficulty filter and the category filter. */
  lemma {:induction false} FilterKeepsExactly(list: seq<Scenario>, term: string, difficultyFilter: string, categoryFilter: string)
    ensures forall x :: x in FilterScenarios(list, term, difficultyFilter, categoryFilter) <==>
      x in list && Keep(x, term, difficultyFilter, categoryFilter)
    decreases |list|
  {
    if list != [] {
      FilterKeepsExactly(list[1..], term, difficultyFilter, categoryFilter);
      assert forall x :: x in list <==> x == list[0] || x in list[1..] by {
        assert list == [list[0]] + list[1..];
      }
    }
  }

  /** `filteredScenarios` on the page. */
  function FilteredScenarios(term: string, difficultyFilter: string, categoryFilter: string): (r: seq<Scenario>)
    ensures Subsequence(r, Catalogue)
    ensures forall x :: x in r <==> x in Catalogue && Keep(x, term, difficultyFilter, categoryFilter)
  {
    FilterKeepsExactly(Catalogue, term, difficultyFilter, categoryFilter);
    FilterScenarios(Catalogue, term, difficultyFilter, categoryFilter)
  }

  /** Choosing a difficulty or a category only narrows the result for "all". */
  lemma {:induction false} FilterNarrows(list: seq<Scenario>, term: string, difficultyFilter: string, categoryFilter: string)
    ensures Subsequence(FilterScenarios(list, term, difficultyFilter, categoryFilter),
                        FilterScenarios(list, term, All, All))
    decreases |list|
  {
    if list != [] {
      FilterNarrows(list[1..], term, difficultyFilter, categoryFilter);
      var narrow := FilterScenarios(list, term, difficultyFilter, categoryFilter);
      var broad := FilterScenarios(list, term, All, All);
      if Keep(list[0], term, difficultyFilter, categoryFilter) {
        assert narrow[1..] == FilterScenarios(list[1..], term, difficultyFilter, categoryFilter);
        assert broad[1..] == FilterScenarios(list[1..], term, All, All);
      } else if Keep(list[0], term, All, All) {
        assert broad[1..] == FilterScenarios(list[1..], term, All, All);
      }
    }
  }

  /** Only the lower-case form of the search term matters. */
  lemma {:induction false} FilterDependsOnLowerTerm(list: seq<Scenario>, t1: string, t2: string, difficultyFilter: string, categoryFilter: string)
    requires Lower(t1) == Lower(t2)
    ensures FilterScenarios(list, t1, difficultyFilter, categoryFilter) == FilterScenarios(list, t2, difficultyFilter, categoryFilter)
    decreases |list|
  {
    if list != [] {
      FilterDependsOnLowerTerm(list[1..], t1, t2, difficultyFilter, categoryFilter);
    }
  }

  /** Typing the search term in capitals, or lower case, gives the same result. */
  lemma SearchIgnoresCase(term: string, difficultyFilter: string, categoryFilter: string)
    ensures FilteredScenarios(Upper(term), difficultyFilter, categoryFilter) == FilteredScenarios(term, difficultyFilter, categoryFilter)
    ensures FilteredScenarios(Lower(term), difficultyFilter, categoryFilter) == FilteredScenarios(term, difficultyFilter, categoryFilter)
  {
    LowerOfUpper(term);
    LowerIdempotent(term);
    FilterDependsOnLowerTerm(Catalogue, Upper(term), term, difficultyFilter, categoryFilter);
    FilterDependsOnLowerTerm(Catalogue, Lower(term), term, difficultyFilter, categoryFilter);
  }

  /** An empty search with both filters on "all" keeps the whole list. */
  lemma {:induction false} EmptySearchKeepsAll(list: seq<Scenario>)
    ensures FilterScenarios(list, "", All, All) == list
    decreases |list|
  {
    if list != [] {
      assert Lower("") == "";
      IncludesEmpty(Lower(list[0].title));
      EmptySearchKeepsAll(list[1..]);
    }
  }

  /** The page first shows the whole catalogue. */
  lemma InitialPageShowsCatalogue()
    ensures FilteredScenarios("", All, All) == Catalogue
  {
    EmptySearchKeepsAll(Catalogue);
  }

  /** Every scenario matches the empty search term. */
  lemma EmptyTermMatches(s: Scenario)
    ensures MatchesSearch(s, "")
  {
    assert Lower("") == "";
    IncludesEmpty(Lower(s.title));
  }

  /** With an empty search and no category filter, only the difficulty decides. */
  lemma {:induction false} EmptySearchByDifficulty(list: seq<Scenario>, difficulty: string, k: nat)
    requires k <= |list| && difficulty != All
    requires forall i :: 0 <= i < k ==> list[i].difficulty != difficulty
    ensures FilterScenarios(list, "", difficulty, All) == FilterScenarios(list[k..], "", difficulty, All)
    decreases k
  {
    if k > 0 {
      EmptySearchByDifficulty(list[1..], difficulty, k - 1);
      assert list[1..][k - 1..] == list[k..];
      assert !Keep(list[0], "", difficulty, All);
    }
  }

  /** Two scenarios that both pass are both kept, in order. */
  lemma FilterKeepsPair(a: Scenario, b: Scenario, term: string, difficultyFilter: string, categoryFilter: string)
    requires Keep(a, term, difficultyFilter, categoryFilter) && Keep(b, term, difficultyFilter, categoryFilter)
    ensures FilterScenarios([a, b], term, difficultyFilter, categoryFilter) == [a, b]
  {
    assert [a, b][1..] == [b];
    assert [b][1..] == [];
  }

  /** Filtering on "Advanced" with an empty search shows the two advanced scenarios. */
  lemma AdvancedOnly()
    ensures FilteredScenarios("", "Advanced", All) == [Catalogue[3], Catalogue[4]]
  {
    var c := Catalogue;
    EmptySearchByDifficulty(c, "Advanced", 3);
    assert c[3..] == [c[3], c[4]];
    FilterKeepsPair(c[3], c[4], "", "Advanced", All);
  }
}
