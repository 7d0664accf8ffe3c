/** The route form of src/components/RouteSelection.tsx: origin and
    destination fields with suggestions filtered from a fixed list of
    Hyderabad locations, and a submit guard. */
module RouteSelection {
  import opened Common
  import opened Text

  /** A named group of locations (the emoji of each group is not modelled). */
  datatype LocationArea = LocationArea(area: string, locations: seq<string>)

  const LocationAreas: seq<LocationArea> := [
    LocationArea("Central Hyderabad", ["Abids", "Koti", "Nampally", "Basheerbagh", "Himayatnagar", "Lakdikapul", "Hyderguda", "King Koti", "Chikkadpally", "Narayanguda"]),
    LocationArea("Old City (South Hyderabad)", ["Charminar", "Mecca Masjid", "Falaknuma", "Shalibanda", "Barkas", "Chandrayangutta", "Dabeerpura", "Yakutpura", "Bahadurpura", "Santoshnagar"]),
    LocationArea("North Hyderabad", ["Secunderabad", "Malkajgiri", "Tarnaka", "Lalaguda", "Nacharam", "Moula Ali", "ECIL", "Neredmet", "Kapra", "Kushaiguda"]),
    LocationArea("West Hyderabad", ["Ameerpet", "Kukatpally", "Miyapur", "Moosapet", "Sanathnagar", "Balanagar", "SR Nagar (Sanathnagar)", "Erragadda", "Bharat Nagar", "Jagadgirigutta"])
  ]

  /** `areas.flatMap(area => area.locations)`: every listed name and no other,
      the first area's names first. */
  function Flatten(areas: seq<LocationArea>): (r: seq<string>)
    ensures forall x :: x in r <==> exists i :: 0 <= i < |areas| && x in areas[i].locations
    ensures areas != [] ==> |areas[0].locations| <= |r| && r[..|areas[0].locations|] == areas[0].locations
  {
    if areas == [] then []
    else
      var rest := Flatten(areas[1..]);
      assert forall x :: (exists i :: 0 <= i < |areas| && x in areas[i].locations) <==>
        (x in areas[0].locations || exists j :: 0 <= j < |areas[1..]| && x in areas[1..][j].locations) by {
        forall x | exists i :: 0 <= i < |areas| && x in areas[i].locations
          ensures x in areas[0].locations || exists j :: 0 <= j < |areas[1..]| && x in areas[1..][j].locations
        {
          var i :| 0 <= i < |areas| && x in areas[i].locations;
          if i > 0 { assert x in areas[1..][i - 1].locations; }
        }
      }
      areas[0].locations + rest
  }

  /** All forty suggestion candidates, area by area. */
  function AllLocations(): seq<string> {
    Flatten(LocationAreas)
  }

  /** The candidate list has forty entries, from "Abids" (Central Hyderabad)
      to "Jagadgirigutta" (West Hyderabad). */
  lemma AllLocationsShape()
    ensures |AllLocations()| == 40
    ensures AllLocations()[0] == "Abids" && AllLocations()[39] == "Jagadgirigutta"
  {
    var areas := LocationAreas;
    assert Flatten(areas[3..]) == areas[3].locations + Flatten(areas[4..]);
    assert Flatten(areas[2..]) == areas[2].locations + Flatten(areas[3..]);
    assert Flatten(areas[1..]) == areas[1].locations + Flatten(areas[2..]);
    assert AllLocations() == areas[0].locations + Flatten(areas[1..]);
  }

  /** The case-insensitive match of one location against the typed text. */
  predicate Matches(location: string, query: string) {
    Includes(Lower(location), Lower(query))
  }

  /** `locations.filter(loc => loc.toLowerCase().includes(query.toLowerCase()))`:
      exactly the matching locations, nothing else. */
  function Filter(locations: seq<string>, query: string): (r: seq<string>)
    ensures forall x :: x in r <==> x in locations && Matches(x, query)
  {
    if locations == [] then []
    else (if Matches(locations[0], query) then [locations[0]] else []) + Filter(locations[1..], query)
  }

  /** `a` is `b` with some elements left out, the rest in their original order. */
  predicate IsSubsequence<T(==)>(a: seq<T>, b: seq<T>)
    decreases |b|
  {
    a == [] || (b != [] && ((a[0] == b[0] && IsSubsequence(a[1..], b[1..])) || IsSubsequence(a, b[1..])))
  }

  /** The filter keeps the order of the list. */
  lemma {:induction false} FilterIsSubsequence(locations: seq<string>, query: string)
    ensures IsSubsequence(Filter(locations, query), locations)
    decreases |locations|
  {
    if locations != [] {
      FilterIsSubsequence(locations[1..], query);
      var r := Filter(locations, query);
      if Matches(locations[0], query) {
        assert r[0] == locations[0] && r[1..] == Filter(locations[1..], query);
      } else {
        assert r == Filter(locations[1..], query);
      }
    }
  }

  /** The suggestion list for a field value: empty for empty input, otherwise
      the matching locations in list order. */
  function Suggestions(value: string): (r: seq<string>)
    ensures value == [] ==> r == []
    ensures value != [] ==> forall x :: x in r <==> x in AllLocations() && Matches(x, value)
  {
    if |value| > 0 then Filter(AllLocations(), value) else []
  }

  /** Suggestions always keep the order of the location list. */
  lemma SuggestionsInListOrder(value: string)
    ensures IsSubsequence(Suggestions(value), AllLocations())
  {
    if |value| > 0 {
      FilterIsSubsequence(AllLocations(), value);
    }
  }

  /** `getBusTypeTitle()`: the heading for each bus category. */
  function BusTypeTitle(busType: BusType): (title: string)
    ensures busType == Local <==> title == "Local City Bus"
    ensures busType == District <==> title == "District Express"
    ensures busType == State <==> title == "State Highway"
  {
    match busType
    case Local => "Local City Bus"
    case District => "District Express"
    case State => "State Highway"
  }

  /** The RouteSelection component's state and handlers. */
  class RouteForm {
    const busType: BusType
    var from: string
    var to: string
    var fromSuggestions: seq<string>
    var toSuggestions: seq<string>

    constructor (busType: BusType)
      ensures this.busType == busType
      ensures from == "" && to == "" && fromSuggestions == [] && toSuggestions == []
    {
      this.busType := busType;
      from, to := "", "";
      fromSuggestions, toSuggestions := [], [];
    }

    /** Typing in the origin field. */
    method HandleFromChange(value: string)
      modifies this
      ensures from == value && fromSuggestions == Suggestions(value)
      ensures to == old(to) && toSuggestions == old(toSuggestions)
    {
      from := value;
      if |value| > 0 {
        fromSuggestions := Filter(AllLocations(), value);
      } else {
        fromSuggestions := [];
      }
    }

    /** Typing in the destination field. */
    method HandleToChange(value: string)
      modifies this
      ensures to == value && toSuggestions == Suggestions(value)
      ensures from == old(from) && fromSuggestions == old(fromSuggestions)
    {
      to := value;
      if |value| > 0 {
        toSuggestions := Filter(AllLocations(), value);
      } else {
        toSuggestions := [];
      }
    }

    /** Clicking an origin suggestion. */
    method PickFromSuggestion(suggestion: string)
      modifies this
      ensures from == suggestion && fromSuggestions == []
      ensures to == old(to) && toSuggestions == old(toSuggestions)
    {
      from := suggestion;
      fromSuggestions := [];
    }

    /** Clicking a destination suggestion. */
    method PickToSuggestion(suggestion: string)
      modifies this
      ensures to == suggestion && toSuggestions == []
      ensures from == old(from) && fromSuggestions == old(fromSuggestions)
    {
      to := suggestion;
      toSuggestions := [];
    }

    /** Submitting the form: the pair handed to `onNext`, or None when either
        field is empty. The form itself does not change. */
    method HandleSubmit() returns (next: Option<(string, string)>)
      ensures next.Some? <==> from != "" && to != ""
      ensures next.Some? ==> next.value == (from, to)
    {
      if from != "" && to != "" {
        next := Some((from, to));
      } else {
        next := None;
      }
    }
  }
}
