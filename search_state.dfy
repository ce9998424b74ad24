/**
 The search and selection state machine of `ContentViewModel`, as values.
 A `ViewState` is a snapshot of the view model's published fields plus the
 completer's query fragment; each `After…` function gives the snapshot after
 one entry point runs. The class in module ContentViewModels is proved to
 move between exactly these snapshots.
 */
module SearchState {
  import opened MapKitValues

  datatype ViewState = ViewState(
    location: string,             // the text in the search field
    searchQuery: string,          // the last text the view model acted on
    completions: seq<Completion>, // the suggestions on show
    region: Region,               // the map's centre and span
    pinItems: seq<PinItem>,       // the pins on the map
    queryFragment: string         // the local search completer's input
  )

  /** The freshly created view model. */
  function Initial(): (s: ViewState)
    ensures s.location == s.searchQuery == s.queryFragment == ""
    ensures s.completions == [] && s.pinItems == []
    ensures s.region.center == Coordinate(35.6586, 139.7454)
    ensures s.region.span.latitudeDelta == s.region.span.longitudeDelta == 100.0
    ensures Consistent(s)
  {
    ViewState("", "", [], DefaultRegion, [], "")
  }

  /**
   The invariant every reachable state keeps: at most one pin, and no
   suggestions while the search query is empty.
   */
  predicate Consistent(s: ViewState) {
    |s.pinItems| <= 1 && (s.searchQuery == "" ==> s.completions == [])
  }

  /** The text field changed: the state after `onSearchLocation`. */
  function AfterSearchLocation(s: ViewState): (t: ViewState)
    // in every branch the search query catches up with the text
    ensures t.searchQuery == t.location == s.location
    // text already acted on: only the suggestions are cleared
    ensures s.searchQuery == s.location ==> t == s.(completions := [])
    // text cleared: no suggestions, the completer is left alone
    ensures s.searchQuery != s.location && s.location == "" ==>
              t.completions == [] && t.queryFragment == s.queryFragment
    // new non-empty text: handed to the completer, suggestions left for it to replace
    ensures s.searchQuery != s.location && s.location != "" ==>
              t.queryFragment == s.location && t.completions == s.completions
    ensures t.region == s.region && t.pinItems == s.pinItems
    ensures Consistent(s) ==> Consistent(t)
  {
    if s.searchQuery == s.location then
      s.(completions := [])
    else
      var s1 := s.(searchQuery := s.location);
      if s1.searchQuery == "" then
        s1.(completions := [])
      else if s1.queryFragment != s1.searchQuery then
        s1.(queryFragment := s1.searchQuery)
      else
        s1
  }

  /** The completer produced `results`: the state after `completerDidUpdateResults`. */
  function AfterResults(s: ViewState, results: seq<Completion>): (t: ViewState)
    ensures s.searchQuery == "" ==> t.completions == []
    ensures s.searchQuery != "" ==> t.completions == results
    ensures t.(completions := s.completions) == s
    ensures Consistent(s) ==> Consistent(t)
  {
    if s.searchQuery == "" then s.(completions := []) else s.(completions := results)
  }

  /** The state after `setPin` issues its search, and the request it issues. */
  datatype Issued = Issued(state: ViewState, request: SearchRequest)

  /** The search was submitted: `setPin` clears the suggestions and searches for the text verbatim. */
  function AfterSetPin(s: ViewState): (out: Issued)
    ensures out.request.naturalLanguageQuery == s.location
    ensures out.state.completions == []
    ensures out.state.(completions := s.completions) == s
    ensures Consistent(s) ==> Consistent(out.state)
  {
    Issued(s.(completions := []), SearchRequest(s.location))
  }

  /** A suggestion was tapped: `onLocationTap` takes its title as the text and the query, then runs `setPin`. */
  function AfterLocationTap(s: ViewState, c: Completion): (out: Issued)
    ensures out.state.location == out.state.searchQuery == c.title
    ensures out.request.naturalLanguageQuery == c.title
    ensures out.state.completions == []
    ensures out.state.region == s.region && out.state.pinItems == s.pinItems
    ensures out.state.queryFragment == s.queryFragment
    // the text change the tap causes makes a following onSearchLocation change nothing
    ensures AfterSearchLocation(out.state) == out.state
    ensures Consistent(s) ==> Consistent(out.state)
  {
    AfterSetPin(s.(location := c.title, searchQuery := c.title))
  }

  /**
   The local search answered (`response` is absent when it failed): a first map
   item moves the single pin and the map to its coordinate; anything else
   leaves the state as it was.
   */
  function AfterSearchResponse(s: ViewState, response: Option<SearchResponse>): (t: ViewState)
    ensures FirstPlacemark(response).None? ==> t == s
    ensures FirstPlacemark(response).Some? ==>
              var c := PlacemarkCoordinate(FirstPlacemark(response).value);
              t.pinItems == [PinItem(c)] && t.region.center == c &&
              t.region.span == Span(PinSpanDegrees, PinSpanDegrees)
    ensures t.(region := s.region, pinItems := s.pinItems) == s
    ensures Consistent(s) ==> Consistent(t)
  {
    match FirstPlacemark(response)
    case None => s
    case Some(placemark) =>
      var c := PlacemarkCoordinate(placemark);
      s.(region := PinRegion(c), pinItems := [PinItem(c)])
  }

  /**
   Everything that can happen to the view model: its four entry points, the
   arrival of the search response, and the two writes its bindings make
   (the text field writes `location`, the map writes `region` when panned).
   */
  datatype Event =
    | LocationEdited(text: string)
    | SearchLocation
    | ResultsArrived(results: seq<Completion>)
    | LocationTapped(completion: Completion)
    | PinRequested
    | SearchResponded(response: Option<SearchResponse>)
    | RegionMoved(region: Region)

  function Step(s: ViewState, e: Event): (t: ViewState) {
    match e
    case LocationEdited(text) => s.(location := text)
    case SearchLocation => AfterSearchLocation(s)
    case ResultsArrived(results) => AfterResults(s, results)
    case LocationTapped(c) => AfterLocationTap(s, c).state
    case PinRequested => AfterSetPin(s).state
    case SearchResponded(response) => AfterSearchResponse(s, response)
    case RegionMoved(r) => s.(region := r)
  }

  /** The state after the events of `trace`, in order. */
  function Run(s: ViewState, trace: seq<Event>): (t: ViewState)
    decreases |trace|
  {
    if trace == [] then s else Step(Run(s, trace[..|trace| - 1]), trace[|trace| - 1])
  }
}
