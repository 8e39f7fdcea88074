/** The location picker of the navigation bar: the display names derived from
    geocoder address records, the suggestion list of a search, and the popover
    state that the picker's handlers update. The forward and reverse geocoding
    services and the browser's geolocation are parameters. */
module Navbar {
  import opened JsValues

  /** The location shown before anything is chosen, and the last fallback. */
  const DEFAULT_LOCATION: string := "India"
  /** The `limit` and `countrycodes` parameters of every search request. */
  const SEARCH_LIMIT: nat := 5
  const COUNTRY_CODES: string := "in"

  /** The fields of a geocoder address record that the picker reads. */
  datatype Address = Address(
    suburb: Option<string>,
    neighbourhood: Option<string>,
    city: Option<string>,
    town: Option<string>,
    state: Option<string>)

  /** A latitude/longitude pair, passed around and stored but never computed on. */
  datatype Coords = Coords(lat: real, lng: real)

  /** One result of a forward search: its address record and its position. */
  datatype GeoResult = GeoResult(address: Address, coords: Coords)

  datatype Suggestion = Suggestion(displayName: string, coordinates: Coords)

  /** The record persisted under "userLocation". A selected suggestion is stored
      without an address; a reverse-geocoded position is stored with one. */
  datatype StoredLocation = StoredLocation(name: string, address: Option<Address>, coordinates: Coords)

  /** The parameters of a forward search request. */
  datatype SearchRequest = SearchRequest(q: string, limit: nat, countryCodes: string)

  /** What the browser's geolocation gives: no geolocation support at all, a
      position, or an error (such as a denied permission). */
  datatype Geo = Unsupported | Position(coords: Coords) | Denied

  // ---------------------------------------------------------------------------
  // Display names

  /** The name of a reverse-geocoded position: suburb, else city, else state,
      else the default. */
  function ReverseName(a: Address): (r: string)
    ensures r != ""
    ensures Present(a.suburb) ==> r == a.suburb.value
    ensures !Present(a.suburb) && Present(a.city) ==> r == a.city.value
    ensures !Present(a.suburb) && !Present(a.city) && Present(a.state) ==> r == a.state.value
    ensures !Present(a.suburb) && !Present(a.city) && !Present(a.state) ==> r == DEFAULT_LOCATION
  {
    Or(Or(Or(a.suburb, a.city), a.state), Some(DEFAULT_LOCATION)).value
  }

  /** `filter(Boolean)` on string-or-undefined values: the non-empty strings,
      in order. */
  function Compact(xs: seq<Option<string>>): (r: seq<string>)
    ensures |r| <= |xs|
    ensures forall i :: 0 <= i < |r| ==> r[i] != ""
    ensures r == [] <==> forall i :: 0 <= i < |xs| ==> !Present(xs[i])
  {
    if xs == [] then []
    else if Present(xs[0]) then [xs[0].value] + Compact(xs[1..])
    else Compact(xs[1..])
  }

  /** Filtering keeps exactly the present values. */
  lemma {:induction false} CompactMembers(xs: seq<Option<string>>)
    ensures forall s :: s in Compact(xs) <==>
      exists i :: 0 <= i < |xs| && Present(xs[i]) && xs[i].value == s
  {
    if xs != [] {
      CompactMembers(xs[1..]);
      forall s ensures s in Compact(xs) <==>
        exists i :: 0 <= i < |xs| && Present(xs[i]) && xs[i].value == s
      {
        if exists i :: 0 <= i < |xs| && Present(xs[i]) && xs[i].value == s {
          var i :| 0 <= i < |xs| && Present(xs[i]) && xs[i].value == s;
          if i > 0 {
            assert xs[1..][i - 1] == xs[i];
          }
        }
        if s in Compact(xs[1..]) {
          var i :| 0 <= i < |xs[1..]| && Present(xs[1..][i]) && xs[1..][i].value == s;
          assert xs[i + 1] == xs[1..][i];
        }
      }
    }
  }

  /** Filtering keeps order and multiplicity: it distributes over `+`. */
  lemma {:induction false} CompactAppend(xs: seq<Option<string>>, ys: seq<Option<string>>)
    ensures Compact(xs + ys) == Compact(xs) + Compact(ys)
  {
    if xs == [] {
      assert xs + ys == ys;
    } else {
      var zs := xs + ys;
      CompactAppend(xs[1..], ys);
      assert zs[0] == xs[0] && zs[1..] == xs[1..] + ys;
      var rest := Compact(xs[1..]) + Compact(ys);
      if Present(xs[0]) {
        calc {
          Compact(zs);
          [xs[0].value] + Compact(zs[1..]);
          [xs[0].value] + rest;
          ([xs[0].value] + Compact(xs[1..])) + Compact(ys);
        }
      }
    }
  }

  /** A single value is kept exactly when it is present. */
  lemma CompactOne(x: Option<string>)
    ensures Compact([x]) == (if Present(x) then [x.value] else [])
  {
    assert [x][1..] == [];
  }

  /** The three candidate segments of a suggestion's name. */
  function NameSegments(a: Address): seq<Option<string>> {
    [Or(a.suburb, a.neighbourhood), Or(a.city, a.town), a.state]
  }

  /** The display name of a search result. */
  function SuggestionName(a: Address): string {
    Join(Compact(NameSegments(a)), ", ")
  }

  /** The name is empty exactly when the record has none of the five fields. */
  lemma SuggestionNameEmptyIff(a: Address)
    ensures SuggestionName(a) == "" <==>
      !Present(a.suburb) && !Present(a.neighbourhood) && !Present(a.city) &&
      !Present(a.town) && !Present(a.state)
  {
    var segs := NameSegments(a);
    var parts := Compact(segs);
    JoinEmptyIff(parts, ", ");
    if parts == [] {
      assert !Present(segs[0]) && !Present(segs[1]) && !Present(segs[2]);
    }
  }

  /** The name is the `", "`-join of non-empty segments, and it starts with the
      area (suburb, else neighbourhood) when there is one. */
  lemma SuggestionNameStartsWithArea(a: Address)
    ensures forall i :: 0 <= i < |Compact(NameSegments(a))| ==> Compact(NameSegments(a))[i] != ""
    ensures Present(a.suburb) ==> StartsWith(SuggestionName(a), a.suburb.value)
    ensures !Present(a.suburb) && Present(a.neighbourhood) ==>
      StartsWith(SuggestionName(a), a.neighbourhood.value)
  {
  }

  /** When the record has a state, the name ends with it. */
  lemma SuggestionNameEndsWithState(a: Address)
    requires Present(a.state)
    ensures var n := SuggestionName(a); var s := a.state.value;
      |s| <= |n| && n[|n| - |s|..] == s
  {
    var segs := NameSegments(a);
    var parts := Compact(segs);
    assert segs[2..] == [a.state];
    assert Compact(segs[2..]) == [a.state.value] + Compact([]);
    assert Compact(segs[1..]) == Compact(segs[2..]) || Compact(segs[1..]) == [segs[1].value] + Compact(segs[2..]);
    assert parts[|parts| - 1] == a.state.value;
    JoinEnds(parts, ", ");
  }

  /** With suburb, city and state all present, the name is exactly those
      three, in that order, separated by ", ". */
  lemma SuggestionNameAllParts(a: Address)
    requires Present(a.suburb) && Present(a.city) && Present(a.state)
    ensures SuggestionName(a) == a.suburb.value + ", " + a.city.value + ", " + a.state.value
  {
    var segs := NameSegments(a);
    assert segs == [segs[0]] + ([segs[1]] + [segs[2]]);
    CompactAppend([segs[0]], [segs[1]] + [segs[2]]);
    CompactAppend([segs[1]], [segs[2]]);
    CompactOne(segs[0]);
    CompactOne(segs[1]);
    CompactOne(segs[2]);
    var parts := [a.suburb.value, a.city.value, a.state.value];
    assert Compact(segs) == parts;
    assert Join(parts[1..][1..], ", ") == a.state.value;
    assert Join(parts[1..], ", ") == a.city.value + ", " + a.state.value;
  }

  /** The suggestion list: one entry per result, in the results' order. */
  function Suggestions(results: seq<GeoResult>): (r: seq<Suggestion>)
    ensures |r| == |results|
    ensures forall i :: 0 <= i < |results| ==>
      r[i].displayName == SuggestionName(results[i].address) && r[i].coordinates == results[i].coords
  {
    if results == [] then []
    else [Suggestion(SuggestionName(results[0].address), results[0].coords)] + Suggestions(results[1..])
  }

  // ---------------------------------------------------------------------------
  // Picker state

  class LocationPicker {
    var currentLocation: string
    var coordinates: Option<Coords>
    var searchQuery: string
    var locationSuggestions: seq<Suggestion>
    var isSearching: bool
    /** The last record persisted under "userLocation", by anyone. */
    var storedLocation: Option<StoredLocation>

    /** The location shown is the default or the one this picker persisted last. */
    ghost predicate Valid()
      reads this
    {
      currentLocation == DEFAULT_LOCATION ||
      (storedLocation.Some? && storedLocation.value.name == currentLocation)
    }

    constructor (persisted: Option<StoredLocation>)
      ensures Valid()
      ensures currentLocation == DEFAULT_LOCATION && coordinates == None && searchQuery == ""
      ensures locationSuggestions == [] && !isSearching && storedLocation == persisted
    {
      currentLocation := DEFAULT_LOCATION;
      coordinates := None;
      searchQuery := "";
      locationSuggestions := [];
      isSearching := false;
      storedLocation := persisted;
    }

    /** The location button opens the popover. */
    method OpenPopover()
      requires Valid()
      modifies this`isSearching
      ensures Valid() && isSearching
    {
      isSearching := true;
    }

    /** A search for `query`. A blank query empties the list without a request;
        otherwise the request carries the untrimmed query, and a failed lookup
        leaves the list as it was. Returns the request made, if any. */
    method FetchLocationSuggestions(query: string, search: SearchRequest -> Option<seq<GeoResult>>)
      returns (requested: Option<SearchRequest>)
      requires Valid()
      modifies this`locationSuggestions
      ensures Valid()
      ensures Trim(query) == "" <==> requested == None
      ensures requested == None ==> locationSuggestions == []
      ensures requested.Some? ==> requested.value == SearchRequest(query, SEARCH_LIMIT, COUNTRY_CODES)
      ensures requested.Some? && search(requested.value).None? ==>
        locationSuggestions == old(locationSuggestions)
      ensures requested.Some? && search(requested.value).Some? ==>
        locationSuggestions == Suggestions(search(requested.value).value)
    {
      if Trim(query) == "" {
        locationSuggestions := [];
        return None;
      }
      var request := SearchRequest(query, SEARCH_LIMIT, COUNTRY_CODES);
      requested := Some(request);
      var response := search(request);
      if response.Some? {
        locationSuggestions := Suggestions(response.value);
      }
    }

    /** Typing in the search box: records the text, keeps the popover open and
        searches for it. */
    method HandleSearchInput(value: string, search: SearchRequest -> Option<seq<GeoResult>>)
      returns (requested: Option<SearchRequest>)
      requires Valid()
      modifies this`searchQuery, this`isSearching, this`locationSuggestions
      ensures Valid()
      ensures searchQuery == value && isSearching
      ensures Trim(value) == "" <==> requested == None
      ensures requested == None ==> locationSuggestions == []
      ensures requested.Some? ==> requested.value == SearchRequest(value, SEARCH_LIMIT, COUNTRY_CODES)
      ensures requested.Some? && search(requested.value).None? ==>
        locationSuggestions == old(locationSuggestions)
      ensures requested.Some? && search(requested.value).Some? ==>
        locationSuggestions == Suggestions(search(requested.value).value)
    {
      searchQuery := value;
      isSearching := true;
      requested := FetchLocationSuggestions(value, search);
    }

    /** Choosing a suggestion shows and persists it and closes the popover. */
    method HandleSuggestionSelect(s: Suggestion)
      requires Valid()
      modifies this`currentLocation, this`searchQuery, this`isSearching,
        this`locationSuggestions, this`storedLocation
      ensures Valid()
      ensures currentLocation == s.displayName && searchQuery == s.displayName
      ensures !isSearching && locationSuggestions == []
      ensures storedLocation == Some(StoredLocation(s.displayName, None, s.coordinates))
    {
      currentLocation := s.displayName;
      searchQuery := s.displayName;
      isSearching := false;
      locationSuggestions := [];
      storedLocation := Some(StoredLocation(s.displayName, None, s.coordinates));
    }

    /** A mousedown anywhere on the page: it closes the popover only when the
        picker is mounted and the target lies outside it. */
    method HandleClickOutside(mounted: bool, inside: bool)
      requires Valid()
      modifies this`isSearching
      ensures Valid()
      ensures mounted && !inside ==> !isSearching
      ensures !(mounted && !inside) ==> isSearching == old(isSearching)
    {
      if mounted && !inside {
        isSearching := false;
      }
    }

    /** Reverse geocoding of a position: on success the fallback name is shown
        and persisted with the address and the position; on failure nothing
        changes. */
    method FetchLocationName(c: Coords, reverse: Coords -> Option<Address>)
      requires Valid()
      modifies this`currentLocation, this`storedLocation
      ensures Valid()
      ensures reverse(c).None? ==>
        currentLocation == old(currentLocation) && storedLocation == old(storedLocation)
      ensures reverse(c).Some? ==>
        var name := ReverseName(reverse(c).value);
        currentLocation == name && storedLocation == Some(StoredLocation(name, reverse(c), c))
    {
      var response := reverse(c);
      if response.Some? {
        var name := ReverseName(response.value);
        currentLocation := name;
        storedLocation := Some(StoredLocation(name, Some(response.value), c));
      }
    }

    /** "Use current location": a position is recorded and reverse-geocoded, a
        geolocation error restores the default, no geolocation support changes
        nothing; in every case the popover closes. */
    method UseCurrentLocation(geo: Geo, reverse: Coords -> Option<Address>)
      requires Valid()
      modifies this`currentLocation, this`coordinates, this`storedLocation, this`isSearching
      ensures Valid()
      ensures !isSearching
      ensures geo.Unsupported? ==>
        currentLocation == old(currentLocation) && coordinates == old(coordinates) &&
        storedLocation == old(storedLocation)
      ensures geo.Denied? ==>
        currentLocation == DEFAULT_LOCATION && coordinates == old(coordinates) &&
        storedLocation == old(storedLocation)
      ensures geo.Position? && reverse(geo.coords).None? ==>
        coordinates == Some(geo.coords) &&
        currentLocation == old(currentLocation) && storedLocation == old(storedLocation)
      ensures geo.Position? && reverse(geo.coords).Some? ==>
        var name := ReverseName(reverse(geo.coords).value);
        coordinates == Some(geo.coords) && currentLocation == name &&
        storedLocation == Some(StoredLocation(name, reverse(geo.coords), geo.coords))
    {
      match geo {
        case Unsupported =>
        case Position(c) =>
          coordinates := Some(c);
          FetchLocationName(c, reverse);
        case Denied =>
          currentLocation := DEFAULT_LOCATION;
      }
      isSearching := false;
    }
  }
}
