/** The type-ahead filter of the map view and the marker-visibility test that
    shares its predicate.

    The filter is defined the way the component computes it (a flat map over
    the countries of a filter-then-project over each country's cities). Beside
    it stands a reference definition, `MatchingPositions`: the positions of the
    matching cities in source order. The lemmas show that the suggestions are
    exactly the projections of those positions, that the positions are exactly
    the matching ones, and that they are strictly ordered. */
module Search {
  import opened Text
  import opened Places

  /** A city is kept when its name, its submitter or its parent country,
      lower-cased, includes the lower-cased query. */
  predicate Matches(country: string, c: City, q: string) {
    Includes(Lower(c.name), Lower(q))
    || Includes(Lower(c.user), Lower(q))
    || Includes(Lower(country), Lower(q))
  }

  predicate MatchesAt(data: seq<Country>, p: Pos, q: string)
    requires ValidPos(data, p)
  {
    Matches(data[p.country].country, CityAt(data, p), q)
  }

  /** `cities.filter(matches).map(project)` for one country. */
  function FilterCities(country: string, cities: seq<City>, q: string): seq<Suggestion>
    decreases |cities|
  {
    if cities == [] then []
    else
      var n := |cities| - 1;
      FilterCities(country, cities[..n], q)
      + (if Matches(country, cities[n], q) then [Project(country, cities[n])] else [])
  }

  /** `filteredSuggestions`: the per-country results concatenated in
      fixture order (`flatMap`). */
  function FilteredSuggestions(data: seq<Country>, q: string): seq<Suggestion>
    decreases |data|
  {
    if data == [] then []
    else
      var n := |data| - 1;
      FilteredSuggestions(data[..n], q) + FilterCities(data[n].country, data[n].cities, q)
  }

  // ---------------------------------------------------------------------
  // Reference definition: matching positions in source order

  lemma OrderedAppend(a: seq<Pos>, b: seq<Pos>)
    requires StrictlyOrdered(a) && StrictlyOrdered(b)
    requires forall x, y :: x in a && y in b ==> Before(x, y)
    ensures StrictlyOrdered(a + b)
  {
  }

  /** Positions of the matching cities among the first `m` cities of
      country `ci`, in ascending city order. */
  function MatchingIn(data: seq<Country>, ci: nat, m: nat, q: string): (ps: seq<Pos>)
    requires ci < |data| && m <= |data[ci].cities|
    ensures forall p :: p in ps ==>
      ValidPos(data, p) && p.country == ci && p.city < m && MatchesAt(data, p, q)
    ensures StrictlyOrdered(ps)
    decreases m
  {
    if m == 0 then []
    else
      var rest := MatchingIn(data, ci, m - 1, q);
      if MatchesAt(data, Pos(ci, m - 1), q) then
        OrderedAppend(rest, [Pos(ci, m - 1)]);
        rest + [Pos(ci, m - 1)]
      else rest
  }

  /** Positions of the matching cities in the first `n` countries, in
      source order. */
  function MatchingUpTo(data: seq<Country>, n: nat, q: string): (ps: seq<Pos>)
    requires n <= |data|
    ensures forall p :: p in ps ==> ValidPos(data, p) && p.country < n && MatchesAt(data, p, q)
    ensures StrictlyOrdered(ps)
    decreases n
  {
    if n == 0 then []
    else
      var rest := MatchingUpTo(data, n - 1, q);
      var last := MatchingIn(data, n - 1, |data[n - 1].cities|, q);
      OrderedAppend(rest, last);
      rest + last
  }

  function MatchingPositions(data: seq<Country>, q: string): (ps: seq<Pos>)
    ensures forall p :: p in ps ==> ValidPos(data, p) && MatchesAt(data, p, q)
  {
    MatchingUpTo(data, |data|, q)
  }

  /** Every position the query matches, as a set. */
  ghost function MatchSet(data: seq<Country>, q: string): set<Pos> {
    set ci: nat, j: nat | ci < |data| && j < |data[ci].cities| && MatchesAt(data, Pos(ci, j), q)
      :: Pos(ci, j)
  }

  // ---------------------------------------------------------------------
  // The filter agrees with the reference definition

  lemma {:induction false} FilterCitiesFollows(data: seq<Country>, ci: nat, m: nat, q: string)
    requires ci < |data| && m <= |data[ci].cities|
    ensures |FilterCities(data[ci].country, data[ci].cities[..m], q)| == |MatchingIn(data, ci, m, q)|
    ensures forall k :: 0 <= k < |MatchingIn(data, ci, m, q)| ==>
      FilterCities(data[ci].country, data[ci].cities[..m], q)[k] == ProjectAt(data, MatchingIn(data, ci, m, q)[k])
    decreases m
  {
    if m > 0 {
      var cs := data[ci].cities[..m];
      assert cs[..m - 1] == data[ci].cities[..m - 1];
      FilterCitiesFollows(data, ci, m - 1, q);
    }
  }

  lemma {:induction false} FilteredFollows(data: seq<Country>, n: nat, q: string)
    requires n <= |data|
    ensures |FilteredSuggestions(data[..n], q)| == |MatchingUpTo(data, n, q)|
    ensures forall k :: 0 <= k < |MatchingUpTo(data, n, q)| ==>
      FilteredSuggestions(data[..n], q)[k] == ProjectAt(data, MatchingUpTo(data, n, q)[k])
    decreases n
  {
    if n > 0 {
      var ds := data[..n];
      assert ds[..n - 1] == data[..n - 1];
      FilteredFollows(data, n - 1, q);
      var cities := data[n - 1].cities;
      assert cities[..|cities|] == cities;
      FilterCitiesFollows(data, n - 1, |cities|, q);
    }
  }

  lemma {:induction false} MatchingInComplete(data: seq<Country>, ci: nat, m: nat, q: string, j: nat)
    requires ci < |data| && j < m <= |data[ci].cities|
    requires MatchesAt(data, Pos(ci, j), q)
    ensures Pos(ci, j) in MatchingIn(data, ci, m, q)
    decreases m
  {
    if j < m - 1 {
      MatchingInComplete(data, ci, m - 1, q, j);
    }
  }

  lemma {:induction false} MatchingUpToComplete(data: seq<Country>, n: nat, q: string, p: Pos)
    requires n <= |data| && ValidPos(data, p) && p.country < n
    requires MatchesAt(data, p, q)
    ensures p in MatchingUpTo(data, n, q)
    decreases n
  {
    if p.country < n - 1 {
      MatchingUpToComplete(data, n - 1, q, p);
    } else {
      MatchingInComplete(data, n - 1, |data[n - 1].cities|, q, p.city);
    }
  }

  // ---------------------------------------------------------------------
  // What the suggestion list is

  /** Ordering and projection: the k-th suggestion copies the fields of the
      k-th matching city in source order, and the matching cities are listed
      in strictly ascending (country, city) order. */
  lemma SuggestionsFollowPositions(data: seq<Country>, q: string)
    ensures |FilteredSuggestions(data, q)| == |MatchingPositions(data, q)|
    ensures StrictlyOrdered(MatchingPositions(data, q))
    ensures forall k :: 0 <= k < |MatchingPositions(data, q)| ==>
      var s, p := FilteredSuggestions(data, q)[k], MatchingPositions(data, q)[k];
      var c := CityAt(data, p);
      && s.name == c.name && s.img == c.img && s.user == c.user
      && s.geocode == c.geocode && s.avtar == c.avtar
      && s.country == data[p.country].country
  {
    assert data[..|data|] == data;
    FilteredFollows(data, |data|, q);
  }

  /** Completeness and soundness at the level of positions: a city's position
      is listed exactly when the city matches the query. */
  lemma MatchingPositionsExact(data: seq<Country>, q: string, p: Pos)
    requires ValidPos(data, p)
    ensures p in MatchingPositions(data, q) <==> MatchesAt(data, p, q)
  {
    if MatchesAt(data, p, q) {
      MatchingUpToComplete(data, |data|, q, p);
    }
  }

  /** A record is suggested exactly when it is the projection of some
      matching city of the fixture. */
  lemma SuggestedIffMatches(data: seq<Country>, q: string, s: Suggestion)
    ensures s in FilteredSuggestions(data, q) <==>
      exists p :: ValidPos(data, p) && MatchesAt(data, p, q) && ProjectAt(data, p) == s
  {
    SuggestionsFollowPositions(data, q);
    var r, ps := FilteredSuggestions(data, q), MatchingPositions(data, q);
    if s in r {
      var k :| 0 <= k < |r| && r[k] == s;
      assert ps[k] in ps;
      assert ProjectAt(data, ps[k]) == s;
    }
    if exists p :: ValidPos(data, p) && MatchesAt(data, p, q) && ProjectAt(data, p) == s {
      var p :| ValidPos(data, p) && MatchesAt(data, p, q) && ProjectAt(data, p) == s;
      MatchingPositionsExact(data, q, p);
      var k :| 0 <= k < |ps| && ps[k] == p;
      assert r[k] == s;
    }
  }

  lemma {:induction false} DistinctCard(ps: seq<Pos>)
    requires StrictlyOrdered(ps)
    ensures |set p | p in ps| == |ps|
  {
    if ps != [] {
      var n := |ps| - 1;
      var init := ps[..n];
      assert StrictlyOrdered(init);
      DistinctCard(init);
      assert (set p | p in ps) == (set p | p in init) + {ps[n]};
      assert ps[n] !in init;
    }
  }

  /** The number of suggestions is the number of matching cities. */
  lemma SuggestionCountIsMatchCount(data: seq<Country>, q: string)
    ensures |FilteredSuggestions(data, q)| == |MatchSet(data, q)|
  {
    SuggestionsFollowPositions(data, q);
    var ps := MatchingPositions(data, q);
    DistinctCard(ps);
    forall p | p in MatchSet(data, q) ensures p in ps {
      MatchingPositionsExact(data, q, p);
    }
    assert (set p | p in ps) == MatchSet(data, q);
  }

  /** Two queries that differ only in letter case give the same suggestions. */
  lemma {:induction false} SearchIgnoresCase(data: seq<Country>, q1: string, q2: string)
    requires Lower(q1) == Lower(q2)
    ensures FilteredSuggestions(data, q1) == FilteredSuggestions(data, q2)
    decreases |data|
  {
    if data != [] {
      var n := |data| - 1;
      SearchIgnoresCase(data[..n], q1, q2);
      FilterIgnoresCase(data[n].country, data[n].cities, q1, q2);
    }
  }

  lemma {:induction false} FilterIgnoresCase(country: string, cities: seq<City>, q1: string, q2: string)
    requires Lower(q1) == Lower(q2)
    ensures FilterCities(country, cities, q1) == FilterCities(country, cities, q2)
    decreases |cities|
  {
    if cities != [] {
      FilterIgnoresCase(country, cities[..|cities| - 1], q1, q2);
    }
  }

  /** The empty query (the initial and the cleared search box) keeps every
      city of the fixture. */
  lemma EmptyQueryKeepsAll(data: seq<Country>, p: Pos)
    requires ValidPos(data, p)
    ensures p in MatchingPositions(data, "")
  {
    assert Lower("") == "";
    MatchingPositionsExact(data, "", p);
  }

  // ---------------------------------------------------------------------
  // Marker visibility

  /** The test that decides whether a marker is rendered for `city` of
      `country` while the search box holds `searchName`. */
  predicate MarkerShown(country: Country, city: City, searchName: string) {
    Includes(Lower(city.name), Lower(searchName))
    || Includes(Lower(city.user), Lower(searchName))
    || Includes(Lower(country.country), Lower(searchName))
  }

  /** The positions of the rendered markers. */
  ghost function VisibleMarkers(data: seq<Country>, searchName: string): set<Pos> {
    set ci: nat, j: nat | ci < |data| && j < |data[ci].cities| && MarkerShown(data[ci], data[ci].cities[j], searchName)
      :: Pos(ci, j)
  }

  /** The markers rendered for a search text are the cities a search for the
      same text suggests, and there are as many of them as suggestions. */
  lemma MarkersMatchSuggestions(data: seq<Country>, q: string)
    ensures VisibleMarkers(data, q) == set p | p in MatchingPositions(data, q)
    ensures |VisibleMarkers(data, q)| == |FilteredSuggestions(data, q)|
  {
    forall p | p in VisibleMarkers(data, q) ensures p in MatchingPositions(data, q) {
      MatchingPositionsExact(data, q, p);
    }
    assert VisibleMarkers(data, q) == MatchSet(data, q);
    SuggestionCountIsMatchCount(data, q);
  }
}
