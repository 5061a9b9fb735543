/** The map view component: two state cells (the search text and the
    suggestion list), the map camera, and the four event handlers that update
    them. */
module MapViews {
  import opened Places
  import opened Search
  import opened Lookup

  /** Where the camera points: a center and a zoom level. */
  datatype View = View(center: Geocode, zoom: nat)

  /** The map's initial center and zoom, as the map container is created
      with them (src/app/components/Maps.jsx:218-219). */
  const InitialView := View(Geocode(48.8566, 2.3522), 3)

  /** The zoom level every fly-to uses. */
  const FlyZoom: nat := 10

  /** The suggestion is a record the filter could have produced from the
      fixture: the projection of one of its cities. */
  ghost predicate FromData(data: seq<Country>, s: Suggestion) {
    exists p :: ValidPos(data, p) && ProjectAt(data, p) == s
  }

  class MapView {
    /** The bundled fixture, read once and never changed. */
    const data: seq<Country>
    var searchName: string
    var suggestions: seq<Suggestion>
    /** The target of the last `flyTo`, or the initial view before any. */
    var camera: View

    /** Every listed suggestion comes from the fixture. */
    ghost predicate Valid()
      reads this
    {
      forall k :: 0 <= k < |suggestions| ==> FromData(data, suggestions[k])
    }

    /** The clear button is rendered only while the search text is non-empty. */
    predicate ShowsClearButton()
      reads this
    {
      searchName != ""
    }

    constructor (data: seq<Country>)
      ensures Valid()
      ensures this.data == data
      ensures searchName == "" && suggestions == [] && camera == InitialView
    {
      this.data := data;
      searchName := "";
      suggestions := [];
      camera := InitialView;
    }

    /** Typing into the search box: the text becomes the new search text and
        the suggestions are recomputed from it. The camera does not move. */
    method HandleSearch(value: string)
      requires Valid()
      modifies this
      ensures Valid()
      ensures searchName == value
      ensures suggestions == FilteredSuggestions(data, value)
      ensures camera == old(camera)
      ensures |suggestions| == |VisibleMarkers(data, searchName)|
    {
      searchName := value;
      var filtered := FilteredSuggestions(data, value);
      suggestions := filtered;
      forall k | 0 <= k < |suggestions| ensures FromData(data, suggestions[k]) {
        SuggestedIffMatches(data, value, suggestions[k]);
      }
      MarkersMatchSuggestions(data, value);
    }

    /** A key press anywhere in the window. Only Enter with a non-empty list
        does anything: it flies to the first city of the fixture named like
        the first suggestion (when that name is non-empty) and empties the
        list; the search text is kept. */
    method HandleKeyDown(key: string)
      requires Valid()
      modifies this
      ensures Valid()
      ensures key != "Enter" || old(suggestions) == [] ==>
        searchName == old(searchName) && suggestions == old(suggestions) && camera == old(camera)
      ensures key == "Enter" && old(suggestions) != [] ==>
        searchName == old(searchName) && suggestions == []
      ensures key == "Enter" && old(suggestions) != [] && old(suggestions)[0].name == "" ==>
        camera == old(camera)
      ensures key == "Enter" && old(suggestions) != [] && old(suggestions)[0].name != "" ==>
        EnterLookup(data, old(suggestions)[0].name).Some?
        && camera == View(CityAt(data, EnterLookup(data, old(suggestions)[0].name).value).geocode, FlyZoom)
    {
      if key == "Enter" && |suggestions| > 0 {
        var first := suggestions[0];
        if first.name != "" {
          assert FromData(data, first);
          var p :| ValidPos(data, p) && ProjectAt(data, p) == first;
          CityNameIsFound(data, p);
          EnterLookupIsFirstMatch(data, first.name);
          var country := FindCountry(data, first.name, 0);
          if country.Some? {
            var city := FindCity(data[country.value].cities, first.name, 0);
            if city.Some? {
              camera := View(data[country.value].cities[city.value].geocode, FlyZoom);
            }
          }
        }
        suggestions := [];
      }
    }

    /** Clicking a suggestion: its name becomes the search text, the camera
        flies to its own geocode and the list is emptied. */
    method HandleSuggestionClick(s: Suggestion)
      requires Valid()
      modifies this
      ensures Valid()
      ensures searchName == s.name && camera == View(s.geocode, FlyZoom) && suggestions == []
    {
      searchName := s.name;
      camera := View(s.geocode, FlyZoom);
      suggestions := [];
    }

    /** The clear button: empties the search text only. The suggestions stay
        as they were, while the markers go back to showing every city. */
    method ClearSearch()
      requires Valid()
      modifies this
      ensures Valid()
      ensures searchName == "" && !ShowsClearButton()
      ensures suggestions == old(suggestions) && camera == old(camera)
      ensures forall p :: ValidPos(data, p) ==> p in VisibleMarkers(data, searchName)
    {
      searchName := "";
      forall p | ValidPos(data, p) ensures p in VisibleMarkers(data, searchName) {
        EmptyQueryKeepsAll(data, p);
        MarkersMatchSuggestions(data, searchName);
      }
    }
  }
}
