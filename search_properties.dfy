/**
 Properties of the view model over whole sequences of events: what stays
 true in every reachable state, where the map and the suggestions on show
 come from, and the behaviour of a few concrete interactions.
 */
module SearchProperties {
  import opened MapKitValues
  import opened SearchState

  /** The coordinate an event places the pin at, if it is a search response with a map item. */
  function ResolvedPin(e: Event): (c: Option<Coordinate>) {
    if e.SearchResponded? && FirstPlacemark(e.response).Some?
    then Some(PlacemarkCoordinate(FirstPlacemark(e.response).value))
    else None
  }

  /** The coordinate of the last search response in `trace` that had a map item. */
  function LastPin(trace: seq<Event>): (c: Option<Coordinate>)
    decreases |trace|
  {
    if trace == [] then None
    else match ResolvedPin(trace[|trace| - 1])
      case Some(c) => Some(c)
      case None => LastPin(trace[..|trace| - 1])
  }

  /** The region set by the last event in `trace` that moved the map: a pan, or a resolved search. */
  function LastRegion(trace: seq<Event>): (r: Option<Region>)
    decreases |trace|
  {
    if trace == [] then None
    else
      var e := trace[|trace| - 1];
      if e.RegionMoved? then Some(e.region)
      else match ResolvedPin(e)
        case Some(c) => Some(PinRegion(c))
        case None => LastRegion(trace[..|trace| - 1])
  }

  /** Every event keeps the invariant, so every state reached from the initial one has it. */
  lemma {:induction false} RunKeepsConsistent(s: ViewState, trace: seq<Event>)
    requires Consistent(s)
    ensures Consistent(Run(s, trace))
    decreases |trace|
  {
    if trace != [] {
      RunKeepsConsistent(s, trace[..|trace| - 1]);
    }
  }

  lemma ReachableStatesAreConsistent(trace: seq<Event>)
    ensures var s := Run(Initial(), trace);
            |s.pinItems| <= 1 && (s.searchQuery == "" ==> s.completions == [])
  {
    RunKeepsConsistent(Initial(), trace);
  }

  /**
   The pins and the region are a projection of the events: the pin is the one
   placed by the last resolved search, and the region the one set by the last
   pan or resolved search; nothing else touches them.
   */
  lemma {:induction false} MapFollowsLastResolution(s: ViewState, trace: seq<Event>)
    ensures Run(s, trace).pinItems ==
              match LastPin(trace) case Some(c) => [PinItem(c)] case None => s.pinItems
    ensures Run(s, trace).region ==
              match LastRegion(trace) case Some(r) => r case None => s.region
    decreases |trace|
  {
    if trace != [] {
      MapFollowsLastResolution(s, trace[..|trace| - 1]);
    }
  }

  /** The list the completer delivered last in `trace`, if it delivered any. */
  function LastResults(trace: seq<Event>): (r: Option<seq<Completion>>)
    decreases |trace|
  {
    if trace == [] then None
    else
      var e := trace[|trace| - 1];
      if e.ResultsArrived? then Some(e.results) else LastResults(trace[..|trace| - 1])
  }

  /**
   The suggestions are replaced wholesale, never merged, reordered or kept
   from an older delivery: what is on show is either nothing or exactly the
   list the completer delivered last (the list already on show if it has
   delivered none since).
   */
  lemma {:induction false} CompletionsAreLastDelivered(s: ViewState, trace: seq<Event>)
    ensures var c := Run(s, trace).completions;
            c == [] || c == match LastResults(trace) case Some(r) => r case None => s.completions
    decreases |trace|
  {
    if trace != [] {
      CompletionsAreLastDelivered(s, trace[..|trace| - 1]);
    }
  }

  lemma ReachableCompletionsAreLastDelivered(trace: seq<Event>)
    ensures var c := Run(Initial(), trace).completions;
            c == [] || LastResults(trace) == Some(c)
  {
    CompletionsAreLastDelivered(Initial(), trace);
  }

  /** Tapping a suggestion, with the search answered by `provider`. */
  function TapAndResolve(s: ViewState, c: Completion, provider: string -> Option<SearchResponse>): (t: ViewState) {
    var issued := AfterLocationTap(s, c);
    AfterSearchResponse(issued.state, provider(issued.request.naturalLanguageQuery))
  }

  /** Tapping the same suggestion twice ends where tapping it once does, pin and region included. */
  lemma TapIsIdempotent(s: ViewState, c: Completion, provider: string -> Option<SearchResponse>)
    ensures TapAndResolve(TapAndResolve(s, c, provider), c, provider) == TapAndResolve(s, c, provider)
  {
  }

  /** Running one more event is one more step. */
  lemma RunAppend(s: ViewState, trace: seq<Event>, e: Event)
    ensures Run(s, trace + [e]) == Step(Run(s, trace), e)
  {
    assert (trace + [e])[..|trace|] == trace;
  }

  /** Type "Tokyo Tower", get one suggestion, tap it, and the search finds it. */
  lemma TokyoTowerScenario()
    ensures var tower := Completion("Tokyo Tower", "Shibakoen, Minato, Tokyo");
            var at := Coordinate(35.65858, 139.74543);
            var response := Some(SearchResponse([MapItem(Placemark(Some(at)))]));
            var s := Run(Initial(), [LocationEdited("Tokyo Tower"), SearchLocation,
                                     ResultsArrived([tower]), LocationTapped(tower),
                                     SearchResponded(response)]);
            s.pinItems == [PinItem(at)] && s.region == Region(at, Span(1.0 / 111.0, 1.0 / 111.0)) &&
            s.completions == [] && s.location == s.searchQuery == "Tokyo Tower" &&
            s.queryFragment == "Tokyo Tower"
  {
    var tower := Completion("Tokyo Tower", "Shibakoen, Minato, Tokyo");
    var at := Coordinate(35.65858, 139.74543);
    var response := Some(SearchResponse([MapItem(Placemark(Some(at)))]));
    var e1, e2, e3, e4, e5 := LocationEdited("Tokyo Tower"), SearchLocation, ResultsArrived([tower]),
                              LocationTapped(tower), SearchResponded(response);
    assert [] + [e1] == [e1] && [e1] + [e2] == [e1, e2] && [e1, e2] + [e3] == [e1, e2, e3];
    assert [e1, e2, e3] + [e4] == [e1, e2, e3, e4];
    RunAppend(Initial(), [], e1);
    RunAppend(Initial(), [e1], e2);
    RunAppend(Initial(), [e1, e2], e3);
    RunAppend(Initial(), [e1, e2, e3], e4);
    RunAppend(Initial(), [e1, e2, e3, e4], e5);
    assert [e1, e2, e3, e4] + [e5] == [e1, e2, e3, e4, e5];
  }

  /** Clearing the text clears the suggestions at once and sends nothing to the completer. */
  lemma ClearingTextClearsSuggestions(s: ViewState)
    ensures var t := Run(s, [LocationEdited(""), SearchLocation]);
            t.completions == [] && t.searchQuery == "" && t.queryFragment == s.queryFragment &&
            t.region == s.region && t.pinItems == s.pinItems
  {
    assert [] + [LocationEdited("")] == [LocationEdited("")];
    assert [LocationEdited("")] + [SearchLocation] == [LocationEdited(""), SearchLocation];
    RunAppend(s, [], LocationEdited(""));
    RunAppend(s, [LocationEdited("")], SearchLocation);
  }

  /** A submitted search the geocoder cannot answer leaves the map and its pin exactly as they were. */
  lemma FailedLookupKeepsMap(s: ViewState, text: string, response: Option<SearchResponse>)
    requires FirstPlacemark(response).None?
    ensures var t := Run(s, [LocationEdited(text), PinRequested, SearchResponded(response)]);
            t.region == s.region && t.pinItems == s.pinItems && t.completions == []
  {
    var e1, e2, e3 := LocationEdited(text), PinRequested, SearchResponded(response);
    assert [] + [e1] == [e1] && [e1] + [e2] == [e1, e2] && [e1, e2] + [e3] == [e1, e2, e3];
    RunAppend(s, [], LocationEdited(text));
    RunAppend(s, [LocationEdited(text)], PinRequested);
    RunAppend(s, [LocationEdited(text), PinRequested], SearchResponded(response));
  }
}
