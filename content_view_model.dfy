/**
 The view model itself: its published fields, updated in place by its entry
 points. The completer and the local search are MapKit services; the
 completer's results arrive as an argument, and the search is split into the
 request `SetPin` returns and the response `OnSearchResponse` handles.
 */
module ContentViewModels {
  import opened MapKitValues
  import opened SearchState

  class ContentViewModel {
    var location: string
    var searchQuery: string
    var completions: seq<Completion>
    var region: Region
    var pinItems: seq<PinItem>
    /** The completer's `queryFragment`: setting it starts a new completion lookup. */
    var queryFragment: string

    /** The published fields as one value. */
    function State(): ViewState
      reads this
    {
      ViewState(location, searchQuery, completions, region, pinItems, queryFragment)
    }

    constructor ()
      ensures location == "" && searchQuery == "" && completions == []
      ensures region == Region(Coordinate(35.6586, 139.7454), Span(100.0, 100.0))
      ensures pinItems == [] && queryFragment == ""
      ensures State() == Initial()
    {
      location := "";
      searchQuery := "";
      completions := [];
      region := DefaultRegion;
      pinItems := [];
      queryFragment := "";
    }

    /** The text field changed. */
    method OnSearchLocation()
      modifies this
      ensures State() == AfterSearchLocation(old(State()))
    {
      if searchQuery == location {
        completions := [];
        return;
      }
      searchQuery := location;
      if searchQuery == "" {
        completions := [];
      } else {
        if queryFragment != searchQuery {
          queryFragment := searchQuery;
        }
      }
    }

    /** The completer has new results. */
    method CompleterDidUpdateResults(results: seq<Completion>)
      modifies this
      ensures State() == AfterResults(old(State()), results)
    {
      if searchQuery == "" {
        completions := [];
      } else {
        completions := results;
      }
    }

    /** A suggestion was tapped; returns the search request it issues. */
    method OnLocationTap(completion: Completion) returns (request: SearchRequest)
      modifies this
      ensures State() == AfterLocationTap(old(State()), completion).state
      ensures request == AfterLocationTap(old(State()), completion).request
    {
      location := completion.title;
      searchQuery := location;
      request := SetPin();
    }

    /** The search was submitted; returns the request sent to the local search. */
    method SetPin() returns (request: SearchRequest)
      modifies this
      ensures State() == AfterSetPin(old(State())).state
      ensures request == AfterSetPin(old(State())).request
    {
      completions := [];
      request := SearchRequest(location);
    }

    /** The local search's completion handler. */
    method OnSearchResponse(response: Option<SearchResponse>)
      modifies this
      ensures State() == AfterSearchResponse(old(State()), response)
    {
      if response.Some? && |response.value.mapItems| > 0 {
        var placemark := response.value.mapItems[0].placemark;
        var latitude := if placemark.location.Some? then placemark.location.value.latitude else 0.0;
        var longitude := if placemark.location.Some? then placemark.location.value.longitude else 0.0;
        region := Region(Coordinate(latitude, longitude), Span(PinSpanDegrees, PinSpanDegrees));
        pinItems := [PinItem(Coordinate(latitude, longitude))];
      }
    }
  }
}
