/** The records of the bundled marker fixture and the suggestion records the
    search derives from them. */
module Places {

  datatype Option<T> = None | Some(value: T)

  /** A `[latitude, longitude]` pair. Only stored and passed on, never
      computed with. */
  datatype Geocode = Geocode(lat: real, lng: real)

  /** One pin of the fixture. `user` is the fixture's `User` key; `img` is
      optional (the popup renders it only when present). */
  datatype City = City(name: string, user: string, geocode: Geocode, avtar: string, img: Option<string>)

  /** One fixture entry: a country name and its ordered cities. */
  datatype Country = Country(country: string, cities: seq<City>)

  /** One row of the suggestion dropdown: the city's fields plus its parent
      country's name. */
  datatype Suggestion = Suggestion(
    name: string,
    img: Option<string>,
    country: string,
    user: string,
    geocode: Geocode,
    avtar: string)

  /** The place of a city in the fixture: country index, then city index. */
  datatype Pos = Pos(country: nat, city: nat)

  predicate ValidPos(data: seq<Country>, p: Pos) {
    p.country < |data| && p.city < |data[p.country].cities|
  }

  function CityAt(data: seq<Country>, p: Pos): City
    requires ValidPos(data, p)
  {
    data[p.country].cities[p.city]
  }

  /** Source order: country index ascending, then city index ascending. */
  predicate Before(a: Pos, b: Pos) {
    a.country < b.country || (a.country == b.country && a.city < b.city)
  }

  ghost predicate StrictlyOrdered(ps: seq<Pos>) {
    forall i, j :: 0 <= i < j < |ps| ==> Before(ps[i], ps[j])
  }

  /** The object literal built for each kept city. */
  function Project(country: string, c: City): Suggestion {
    Suggestion(c.name, c.img, country, c.user, c.geocode, c.avtar)
  }

  function ProjectAt(data: seq<Country>, p: Pos): Suggestion
    requires ValidPos(data, p)
  {
    Project(data[p.country].country, CityAt(data, p))
  }
}
