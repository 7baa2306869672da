/**
 Views/Screens/HomeScreen.swift: the list the home screen shows (the borough
 chip AND the search box applied to the loaded catalog), the list's section
 title and when the featured carousel is shown.
 */
module HomeScreen {

  import opened Options
  import opened Text
  import opened Seqs
  import opened Restaurants
  import opened MockData

  /** The borough step of `filteredRestaurants`: everything when no chip is selected. */
  function ByBorough(restaurants: seq<Restaurant>, selected: Option<Borough>): (rs: seq<Restaurant>)
    ensures IsSubsequence(rs, restaurants)
    ensures forall r :: r in rs <==> r in restaurants && (selected.Some? ==> r.borough == BoroughRaw(selected.value))
    ensures forall r ::
              multiset(rs)[r] ==
                if selected.Some? ==> r.borough == BoroughRaw(selected.value) then multiset(restaurants)[r] else 0
  {
    if selected.Some? then
      GetRestaurantsFor(restaurants, selected.value)
    else
      SubsequenceReflexive(restaurants);
      restaurants
  }

  /**
   `filteredRestaurants`: first keep the selected borough (raw string
   equality), then, unless the search text is empty, keep the entries the
   lower-cased search text occurs in. Whitespace is not trimmed.
   */
  function FilteredRestaurants(restaurants: seq<Restaurant>, selected: Option<Borough>, searchText: string): (rs: seq<Restaurant>)
    ensures IsSubsequence(rs, restaurants)
    ensures forall r :: r in rs <==>
      && r in restaurants
      && (selected.Some? ==> r.borough == BoroughRaw(selected.value))
      && (searchText != "" ==> MatchesQuery(r, Lower(searchText)))
    ensures forall r ::
              multiset(rs)[r] ==
                if && (selected.Some? ==> r.borough == BoroughRaw(selected.value))
                   && (searchText != "" ==> MatchesQuery(r, Lower(searchText)))
                then multiset(restaurants)[r] else 0
  {
    var byBorough := ByBorough(restaurants, selected);
    if searchText != "" then
      var found := SearchRestaurants(byBorough, searchText);
      SubsequenceTransitive(found, byBorough, restaurants);
      found
    else byBorough
  }

  /** Both filters at once: one pass with the conjunction of the two tests. */
  predicate BoroughAndQuery(r: Restaurant, b: Borough, loweredQuery: string)
  {
    InBorough(r, b) && MatchesQuery(r, loweredQuery)
  }

  function BothTest(b: Borough, loweredQuery: string): Restaurant -> bool
  {
    r => BoroughAndQuery(r, b, loweredQuery)
  }

  /** With no borough chip and an empty search box the loaded list is shown unchanged. */
  lemma NoFilterIsIdentity(restaurants: seq<Restaurant>)
    ensures FilteredRestaurants(restaurants, None, "") == restaurants
  {
  }

  /**
   Each filter alone is the catalog service's query of the same name, so the
   home screen's inline predicates agree with `getRestaurants(for:)` and
   `searchRestaurants(query:)`.
   */
  lemma SingleFiltersAreServiceQueries(restaurants: seq<Restaurant>, b: Borough, searchText: string)
    ensures FilteredRestaurants(restaurants, Some(b), "") == GetRestaurantsFor(restaurants, b)
    ensures searchText != "" ==>
      FilteredRestaurants(restaurants, None, searchText) == SearchRestaurants(restaurants, searchText)
  {
  }

  /**
   With both filters active the result is a single filter by the conjunction,
   and the order in which the two filters are applied does not matter.
   */
  lemma BothFiltersAreConjunction(restaurants: seq<Restaurant>, b: Borough, searchText: string)
    requires searchText != ""
    ensures FilteredRestaurants(restaurants, Some(b), searchText) == Filter(restaurants, BothTest(b, Lower(searchText)))
    ensures FilteredRestaurants(restaurants, Some(b), searchText)
      == GetRestaurantsFor(SearchRestaurants(restaurants, searchText), b)
  {
    var p, q, pq := BoroughTest(b), QueryTest(Lower(searchText)), BothTest(b, Lower(searchText));
    FilterConjunction(restaurants, p, q, pq);
    FilterConjunction(restaurants, q, p, pq);
  }

  /**
   A search box holding only a space still filters: the space is looked for
   literally, so an entry with a space in its neighbourhood stays and an
   entry with no space in its name, cuisine or neighbourhood goes, while an
   empty box keeps both.
   */
  lemma WhitespaceQueryIsLiteral(restaurants: seq<Restaurant>)
    ensures Carbone() in restaurants ==> Carbone() in FilteredRestaurants(restaurants, None, " ")
    ensures Lilia() !in FilteredRestaurants(restaurants, None, " ")
    ensures Lilia() in restaurants ==> Lilia() in FilteredRestaurants(restaurants, None, "")
  {
    SpaceQueryMatches();
    SpaceQueryMisses();
  }

  /** Carbone's neighbourhood, "Greenwich Village", holds a space. */
  lemma SpaceQueryMatches()
    ensures MatchesQuery(Carbone(), Lower(" "))
  {
    assert Lower(" ") == " ";
    var n := Carbone().neighborhood;
    assert n == "Greenwich Village";
    SpaceOccurs(n, 9);
  }

  /** Lilia's name, cuisine and neighbourhood ("Lilia", "Italian", "Williamsburg") hold no space. */
  lemma SpaceQueryMisses()
    ensures !MatchesQuery(Lilia(), Lower(" "))
  {
    assert Lower(" ") == " ";
    LiliaFieldsHaveNoSpace(Lilia());
  }

  lemma LiliaFieldsHaveNoSpace(r: Restaurant)
    requires r.name == "Lilia" && r.cuisineType == "Italian" && r.neighborhood == "Williamsburg"
    ensures !MatchesQuery(r, " ")
  {
    LiliaWordsHaveNoSpace();
    NoSpaceNoMatch("Lilia");
    NoSpaceNoMatch("Italian");
    NoSpaceNoMatch("Williamsburg");
  }

  lemma LiliaWordsHaveNoSpace()
    ensures ' ' !in "Lilia" && ' ' !in "Italian" && ' ' !in "Williamsburg"
  {
  }

  /** A string with a space at position `i` contains a space once lower-cased. */
  lemma SpaceOccurs(s: string, i: int)
    requires 0 <= i < |s| && s[i] == ' '
    ensures Contains(Lower(s), " ")
  {
    var l := Lower(s);
    assert l[i..i + 1] == [l[i]];
    assert OccursAt(l, " ", i);
  }

  /** A string with no space does not contain a space once lower-cased. */
  lemma NoSpaceNoMatch(s: string)
    requires ' ' !in s
    ensures !Contains(Lower(s), " ")
  {
    assert forall i :: 0 <= i < |s| ==> s[i] != ' ';
    var l := Lower(s);
    assert forall i :: 0 <= i < |l| ==> l[i] != ' ';
    NoSpaceNoOccurrence(l);
  }

  lemma NoSpaceNoOccurrence(l: string)
    requires forall i :: 0 <= i < |l| ==> l[i] != ' '
    ensures !Contains(l, " ")
  {
    forall i
      ensures !OccursAt(l, " ", i)
    {
      if 0 <= i && i + 1 <= |l| {
        assert l[i..i + 1] == [l[i]];
      }
    }
  }

  /** `sectionTitle`: a selected borough's name, else "Results" while searching, else "All Restaurants". */
  function SectionTitle(selected: Option<Borough>, searchText: string): (title: string)
    ensures selected.Some? ==> BoroughFromRaw(title) == selected
    ensures selected.None? ==> BoroughFromRaw(title).None?
  {
    if selected.Some? then BoroughRaw(selected.value)
    else if searchText != "" then "Results"
    else "All Restaurants"
  }

  /** The featured carousel appears only when nothing narrows the list. */
  predicate ShowsFeatured(selected: Option<Borough>, searchText: string)
  {
    searchText == "" && selected.None?
  }

  /**
   The three titles tell the three states apart: "All Restaurants" exactly
   when the carousel is shown, "Results" exactly when only the search box is
   in use.
   */
  lemma SectionTitleStates(selected: Option<Borough>, searchText: string)
    ensures ShowsFeatured(selected, searchText) <==> SectionTitle(selected, searchText) == "All Restaurants"
    ensures SectionTitle(selected, searchText) == "Results" <==> selected.None? && searchText != ""
  {
  }

  /** `"\(filteredRestaurants.count) places"`. */
  function PlacesLabel(restaurants: seq<Restaurant>, selected: Option<Borough>, searchText: string): (caption: string)
    ensures |caption| > 7 && caption[|caption| - 7..] == " places"
    ensures ParseNat(caption[..|caption| - 7]) == Some(|FilteredRestaurants(restaurants, selected, searchText)|)
  {
    var digits := NatToString(|FilteredRestaurants(restaurants, selected, searchText)|);
    var caption := digits + " places";
    assert caption[..|caption| - 7] == digits;
    caption
  }
}
