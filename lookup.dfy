/** The lookup the Enter key performs: the first country that has some city
    with the wanted name, then the first such city in that country. Names are
    compared after lower-casing both sides. */
module Lookup {
  import opened Text
  import opened Places
  import Search

  predicate SameName(c: City, name: string) {
    Lower(c.name) == Lower(name)
  }

  /** `cities.some(...)`. */
  predicate HasCityNamed(cities: seq<City>, name: string) {
    exists j | 0 <= j < |cities| :: SameName(cities[j], name)
  }

  /** `markersData.find(marker => marker.cities.some(...))`, as the index of
      the country found, scanning from index `from`. */
  function FindCountry(data: seq<Country>, name: string, from: nat): (r: Option<nat>)
    requires from <= |data|
    ensures r.Some? ==> from <= r.value < |data| && HasCityNamed(data[r.value].cities, name)
    ensures forall i :: from <= i < |data| && (r.None? || i < r.value) ==> !HasCityNamed(data[i].cities, name)
    decreases |data| - from
  {
    if from == |data| then None
    else if HasCityNamed(data[from].cities, name) then Some(from)
    else FindCountry(data, name, from + 1)
  }

  /** `cities.find(...)`, as the index of the city found, scanning from
      index `from`. */
  function FindCity(cities: seq<City>, name: string, from: nat): (r: Option<nat>)
    requires from <= |cities|
    ensures r.Some? ==> from <= r.value < |cities| && SameName(cities[r.value], name)
    ensures forall j :: from <= j < |cities| && (r.None? || j < r.value) ==> !SameName(cities[j], name)
    decreases |cities| - from
  {
    if from == |cities| then None
    else if SameName(cities[from], name) then Some(from)
    else FindCity(cities, name, from + 1)
  }

  /** The whole Enter lookup: the position of the city the camera flies to,
      or None when neither `find` succeeds. */
  function EnterLookup(data: seq<Country>, name: string): Option<Pos> {
    match FindCountry(data, name, 0)
    case None => None
    case Some(i) =>
      match FindCity(data[i].cities, name, 0)
      case None => None
      case Some(j) => Some(Pos(i, j))
  }

  /** The lookup finds the first city in source order whose lower-cased name
      equals the lower-cased wanted name, and finds nothing only when there is
      no such city. */
  lemma EnterLookupIsFirstMatch(data: seq<Country>, name: string)
    ensures EnterLookup(data, name).Some? ==>
      var p := EnterLookup(data, name).value;
      && ValidPos(data, p) && SameName(CityAt(data, p), name)
      && forall p' :: ValidPos(data, p') && Before(p', p) ==> !SameName(CityAt(data, p'), name)
    ensures EnterLookup(data, name).None? ==>
      forall p :: ValidPos(data, p) ==> !SameName(CityAt(data, p), name)
  {
  }

  /** The inner `if (firstCity)` guard never fails: once a country is found,
      the city search inside it succeeds. */
  lemma FoundCountryHasCity(data: seq<Country>, name: string)
    ensures FindCountry(data, name, 0).Some? ==>
      FindCity(data[FindCountry(data, name, 0).value].cities, name, 0).Some?
  {
  }

  /** Looking up the name of any city of the fixture succeeds. */
  lemma CityNameIsFound(data: seq<Country>, p: Pos)
    requires ValidPos(data, p)
    ensures EnterLookup(data, CityAt(data, p).name).Some?
  {
  }

  /** Enter looks the first suggestion up again by name, so when two cities
      share a name it can fly to another city than the one suggested: here the
      query "au" suggests only the Australian "sp", but Enter finds the
      American one first. */
  lemma EnterMayLeaveFirstSuggestion()
    ensures
      var us := City("sp", "b", Geocode(39.8, -89.6), "a.png", None);
      var au := City("sp", "a", Geocode(-33.2, 151.0), "b.png", None);
      var data := [Country("us", [us]), Country("australia", [au])];
      var r := Search.FilteredSuggestions(data, "au");
      && r == [Project("australia", au)]
      && EnterLookup(data, r[0].name) == Some(Pos(0, 0))
      && CityAt(data, Pos(0, 0)).geocode != r[0].geocode
  {
    var us := City("sp", "b", Geocode(39.8, -89.6), "a.png", None);
    var au := City("sp", "a", Geocode(-33.2, 151.0), "b.png", None);
    var data := [Country("us", [us]), Country("australia", [au])];
    assert Lower("au") == "au" && Lower("sp") == "sp" && Lower("a") == "a" && Lower("b") == "b";
    assert Lower("us") == "us" && Lower("australia") == "australia";
    assert "sp"[0] == 's' && "p"[0] == 'p' && "us"[0] == 'u' && "s"[0] == 's' && "b"[0] == 'b';
    assert "sp"[1..] == "p" && "p"[1..] == "" && "us"[1..] == "s" && "s"[1..] == "";
    assert !Includes("p", "au") && !Includes("s", "au");
    assert !Includes("sp", "au") && !Includes("b", "au") && !Includes("us", "au");
    assert Includes("australia", "au");
    assert [us][..0] == [] && [au][..0] == [];
    assert Search.FilterCities("us", [us], "au") == [];
    assert Search.FilterCities("australia", [au], "au") == [Project("australia", au)];
    assert data[..1][..0] == [];
    assert Search.FilteredSuggestions(data[..1], "au") == [];
  }
}
