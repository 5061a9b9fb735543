# Map search view: a Dafny model

This project models the search-and-select behaviour of the `Maps` component
of a single-page map viewer. The component shows pins from a bundled fixture:
countries, each with an ordered list of cities, and each city carries a
submitter name, a geocode, an avatar and an optional photo. The search box is
type-ahead:

- every keystroke recomputes a flat list of suggestions. These are the cities
  whose name, submitter or country contains the query, compared
  case-insensitively, listed in fixture order;
- the same test decides which markers are drawn;
- pressing Enter looks up the first suggestion's name in the fixture and
  flies the camera there;
- clicking a suggestion flies to that suggestion;
- a clear button empties the search text.

Modules:

- `Text` (text.dfy): lower-casing (ASCII folding) and `includes` as a
  recursive scan, proved equal to "occurs at some index".
- `Places` (places.dfy): the fixture records (`Country`, `City`, `Geocode`),
  the `Suggestion` record, and `Pos`, a (country index, city index) pair
  whose order is source order.
- `Search` (search.dfy): the filter, written as the component computes it
  (`FilterCities` is filter-then-map over one country, and
  `FilteredSuggestions` concatenates the countries). It also holds a
  reference definition, `MatchingPositions`: the positions of the matching
  cities in source order. Lemmas tie the two together, and the module models
  marker visibility.
- `Lookup` (lookup.dfy): the Enter key's `find` / `some` / `find` lookup.
- `MapViews` (mapview.dfy): the component as a class. Its fields are the
  fixture, the two state cells `searchName` and `suggestions`, and `camera`.
  The methods are the four event handlers.

How the code behaves:

- Enter does not change the search text. It flies to the first city in
  fixture order whose lower-cased name equals the lower-cased name of the
  first suggestion. That city need not be the suggested one: two cities can
  share a name (`Lookup.EnterMayLeaveFirstSuggestion`). A click, by contrast,
  flies to the clicked suggestion's own geocode.
- The clear button empties only the search text. The suggestion list stays
  as it was, while the markers go back to showing every city, because the
  empty query matches everything.
- The model keeps no list of recent visits or saved places, because the
  component has none.

## Model

| member | source | states |
|---|---|---|
| `Text.IncludesIffOccurs` | src/app/components/Maps.jsx:59-61 | `includes(s, q)` holds exactly when `q` occurs in `s` at some index; the empty query occurs in every string |
| `Search.MatchingIn` | src/app/components/Maps.jsx:56-62 | the kept cities of one country, as positions: every position is valid, belongs to that country, and matches the query; the positions are in strictly ascending city order |
| `Search.MatchingUpTo` | src/app/components/Maps.jsx:55-71 | over the first n countries: every listed position is valid and matching; the positions are in strictly ascending (country, city) order |
| `Search.MatchingPositions` | src/app/components/Maps.jsx:55-71 | every position in the reference list is a valid city that matches the query |
| `Search.FilterCitiesFollows` | src/app/components/Maps.jsx:56-70 | the per-country `filter(...).map(...)` has one entry per matching position, and each entry is the projection of the city at that position |
| `Search.FilteredFollows` | src/app/components/Maps.jsx:55-71 | the same holds for the `flatMap` over the first n countries |
| `Search.SuggestionsFollowPositions` | src/app/components/Maps.jsx:55-71 | ordering and projection: there are as many suggestions as matching positions, and those positions strictly increase in (country, city) order. The k-th suggestion copies `name`, `img`, `User` (as `user`), `geocode` and `avtar` from its city, and `country` from the parent record |
| `Search.MatchingPositionsExact` | src/app/components/Maps.jsx:57-62 | completeness and soundness: a city's position is listed exactly when its name, submitter or country, lower-cased, includes the lower-cased query |
| `Search.SuggestedIffMatches` | src/app/components/Maps.jsx:55-70 | a record is among the suggestions exactly when it is the projection of some matching city of the fixture |
| `Search.SuggestionCountIsMatchCount` | src/app/components/Maps.jsx:55-71 | the number of suggestions is the number of matching cities |
| `Search.SearchIgnoresCase` | src/app/components/Maps.jsx:58-61 | two queries equal after lower-casing give the same suggestion list |
| `Search.FilterIgnoresCase` | src/app/components/Maps.jsx:56-62 | the same holds for one country's filter |
| `Search.EmptyQueryKeepsAll` | src/app/components/Maps.jsx:58-61 | the empty query matches every city of the fixture |
| `Search.MarkersMatchSuggestions` | src/app/components/Maps.jsx:226-232 | the positions of the rendered markers for search text `q` are exactly the positions the filter suggests for `q`, and there are as many markers as suggestions |
| `Lookup.FindCountry` | src/app/components/Maps.jsx:24-29 | the country found is the first, from the start index, that has some city with the wanted name; when none is found, no country has one |
| `Lookup.FindCity` | src/app/components/Maps.jsx:31-34 | the city found is the first, from the start index, with the wanted name; when none is found, no city has that name |
| `Lookup.EnterLookupIsFirstMatch` | src/app/components/Maps.jsx:24-37 | the Enter lookup yields the first city in source order whose lower-cased name equals the lower-cased wanted name; it yields nothing only when no city has that name |
| `Lookup.FoundCountryHasCity` | src/app/components/Maps.jsx:30-35 | once a country is found, the city search inside it always succeeds, so the inner guard never fails |
| `Lookup.CityNameIsFound` | src/app/components/Maps.jsx:17-37 | looking up the name of any city of the fixture succeeds |
| `Lookup.EnterMayLeaveFirstSuggestion` | src/app/components/Maps.jsx:24-36 | a concrete fixture where the only suggestion for "au" is one city, and Enter flies to another city of the same name |
| `MapViews.MapView.constructor` | src/app/components/Maps.jsx:11-13 | the initial state of the two state cells and the camera: empty search text, no suggestions, and the camera at the map container's initial center [48.8566, 2.3522] and zoom 3 (set at src/app/components/Maps.jsx:218-219) |
| `MapViews.MapView.HandleSearch` | src/app/components/Maps.jsx:51-74 | typing sets `searchName` to exactly the typed value and `suggestions` to the filter of that value; the camera is unchanged, there are as many suggestions as rendered markers, and every suggestion comes from the fixture |
| `MapViews.MapView.HandleKeyDown` | src/app/components/Maps.jsx:15-42 | a key other than Enter, or Enter with an empty list, changes nothing. Enter with a non-empty list empties `suggestions` and keeps `searchName`. If the first suggestion's name is empty, the camera stays. Otherwise a city with that name exists and the camera flies to the first such city in source order, at zoom 10 |
| `MapViews.MapView.HandleSuggestionClick` | src/app/components/Maps.jsx:76-80 | `searchName` becomes the suggestion's name, the camera targets the suggestion's own geocode at zoom 10, and `suggestions` becomes empty |
| `MapViews.MapView.ClearSearch` | src/app/components/Maps.jsx:116-118 | `searchName` becomes empty and the clear button disappears; `suggestions` and the camera are unchanged, and every city's marker is shown again |

## Left out

- Rendering: JSX, styling, the tile layer, marker clustering, icons and popups. These are calls into the mapping and UI libraries. Only which markers are shown is modelled, as a set of positions.
- The `flyTo` animation: the camera is modelled only as the target of the last fly-to, as a center and a zoom.
- Registering and removing the window keydown listener (src/app/components/Maps.jsx:44-49) is effect plumbing. Re-registering on every change of `suggestions` makes the handler read the current list, which is what `HandleKeyDown` does.
- The guards `firstSuggestion && typeof firstSuggestion === "object"` always hold. Suggestions are records here, so only the non-empty-name guard is modelled.
- `mapRef.current` being null before the map mounts is not modelled. The camera always exists.
- Lower-casing is ASCII folding. Unicode `toLowerCase` (other scripts, special cases that change length) is not modelled.
- Geocodes are pairs of reals that are only stored and compared, never computed on. Floating point is not modelled.
- The contents of the fixture file are not part of this model. The fixture is a constructor parameter, and missing or malformed fields are not modelled, since the fixture is trusted.
- Recent visits and saved places: the component implements neither.
- src/app/layout.js and src/app/page.js are not part of this model. They contain page wiring and no logic.
