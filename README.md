# SetMapPinSample: the search and pin state machine

SetMapPinSample is a SwiftUI app. The user types a place name and sees suggestions from MapKit's local search completer. The user can tap a suggestion or submit the text, and the map then centres on a single pin at about one kilometre's zoom. All of its logic is in `ContentViewModel`, a class whose published fields change in place:

- `location`: the text in the field.
- `searchQuery`: the last text the model acted on.
- `completions`: the suggestions on show.
- `region`: the map's centre and span.
- `pinItems`: zero or one pin.
- `queryFragment`: the completer's input.

This project models that class in Dafny and proves what its entry points do.

- `mapkit_values.dfy` (module `MapKitValues`) holds the MapKit values the class handles. Coordinates and spans are `real` values that are only copied. A search response is reduced to its map items' placemarks, and each placemark has an optional location. The span 1/111 degree and the starting region are named constants.
- `search_state.dfy` (module `SearchState`) describes the state machine as values. `ViewState` is a snapshot of the fields. Each `After…` function gives the snapshot after one entry point, and its contract states what that entry point promises. `Event`, `Step` and `Run` replay any sequence of entry points. Two binding writes are also events: the text field writing `location`, and the map writing `region` when the user pans.
- `content_view_model.dfy` (module `ContentViewModels`) holds the class `ContentViewModel` with the same fields. Its methods update the fields in place, and each is proved to move `State()` exactly as the matching `After…` function says. The local search is split in two. `SetPin` returns the request it issues, and `OnSearchResponse` is the search's completion handler.
- `search_properties.dfy` (module `SearchProperties`) proves properties over whole event sequences:
  - invariants of every reachable state;
  - the map as a projection of the last resolved search or pan;
  - where the suggestions on show come from;
  - that a repeated tap has the same effect as one tap;
  - three concrete interactions.

Some behaviours one might expect of a search box are not in the code, and the model follows the code:

- Completion results carry no request token, so late results are never discarded. Results that arrive while the query is non-empty replace the list wholesale, whatever query they were computed for, so what is on show is nothing or the last delivered list (`CompletionsAreLastDelivered`).
- The text is not trimmed, so whitespace counts as text.
- An empty text is still sent to the local search when the user submits it.
- Typing never clears the pin; only a resolved search replaces it.
- Tapping a suggestion does not go through `onSearchLocation`. The text change it causes later makes `onSearchLocation` change nothing (`AfterLocationTap` proves this).

`1/111` in `let span: CLLocationDegrees = 1/111` is a `Double` division, because the annotation types both literals. So the span is modelled as the real 1/111, not as integer division.

## Model

| member | source | states |
|---|---|---|
| SearchState.Initial | SetMapPinSample/ContentViewModel.swift:19-32 | a new view model has empty text, query, completer input, suggestions and pins, and a region centred at (35.6586, 139.7454) with both spans 100; it satisfies the invariant |
| SearchState.AfterSearchLocation | SetMapPinSample/ContentViewModel.swift:45-63 | in every branch the query equals the text afterwards. Text already acted on: only the suggestions are cleared. Text newly cleared: no suggestions, completer input untouched. New non-empty text: it becomes the completer input and the suggestions are left for the completer. The map never changes, and the invariant is kept |
| SearchState.AfterResults | SetMapPinSample/ContentViewModel.swift:67-75 | with an empty query there are no suggestions; otherwise they are exactly the completer's results in its order; no other field changes; the invariant is kept |
| SearchState.AfterSetPin | SetMapPinSample/ContentViewModel.swift:91-103 | submitting clears the suggestions and changes nothing else; the request's query is the text verbatim |
| SearchState.AfterLocationTap | SetMapPinSample/ContentViewModel.swift:79-88 | after a tap the text and the query are both the suggestion's title, the request searches for that title, the suggestions are cleared, and map and completer input are untouched; a following onSearchLocation then changes nothing |
| SearchState.AfterSearchResponse | SetMapPinSample/ContentViewModel.swift:103-119 | no response or no map item leaves everything unchanged; otherwise exactly one pin at the first item's coordinate and a region centred there with both spans 1/111; the text fields never change |
| MapKitValues.FirstPlacemark | SetMapPinSample/ContentViewModel.swift:104 | there is a placemark exactly when there is a response with at least one map item, and it is the first item's |
| MapKitValues.PlacemarkCoordinate | SetMapPinSample/ContentViewModel.swift:107-108 | the placemark's location, or latitude and longitude 0.0 when it has none |
| MapKitValues.PinRegion | SetMapPinSample/ContentViewModel.swift:93-113 | the pin region is centred on the pin with both spans 1/111 degree |
| ContentViewModels.ContentViewModel.constructor | SetMapPinSample/ContentViewModel.swift:18-42 | the fields start with the initial values listed for Initial |
| ContentViewModels.ContentViewModel.OnSearchLocation | SetMapPinSample/ContentViewModel.swift:45-63 | the fields change in place to the state AfterSearchLocation gives, including the early return and the conditional write of the completer input |
| ContentViewModels.ContentViewModel.CompleterDidUpdateResults | SetMapPinSample/ContentViewModel.swift:67-75 | the fields change in place to the state AfterResults gives for the completer's results |
| ContentViewModels.ContentViewModel.OnLocationTap | SetMapPinSample/ContentViewModel.swift:79-88 | the fields and the issued request are those AfterLocationTap gives |
| ContentViewModels.ContentViewModel.SetPin | SetMapPinSample/ContentViewModel.swift:91-103 | the fields and the issued request are those AfterSetPin gives |
| ContentViewModels.ContentViewModel.OnSearchResponse | SetMapPinSample/ContentViewModel.swift:103-119 | the completion handler moves the fields to the state AfterSearchResponse gives |
| SearchProperties.RunKeepsConsistent | SetMapPinSample/ContentViewModel.swift:45-119 | every sequence of events keeps the invariant: at most one pin, and no suggestions while the query is empty |
| SearchProperties.ReachableStatesAreConsistent | SetMapPinSample/ContentViewModel.swift:20-32 | every state reached from a new view model has at most one pin and shows no suggestions for an empty query |
| SearchProperties.MapFollowsLastResolution | SetMapPinSample/ContentViewModel.swift:103-119 | after any events, the pins are the single pin of the last resolved search (else unchanged), and the region is the one set by the last pan or resolved search (else unchanged) |
| SearchProperties.CompletionsAreLastDelivered | SetMapPinSample/ContentViewModel.swift:67-75 | after any events the suggestions are empty or exactly the list the completer delivered last (the starting list if it delivered none); lists are replaced wholesale, never merged, reordered or kept from an older delivery |
| SearchProperties.ReachableCompletionsAreLastDelivered | SetMapPinSample/ContentViewModel.swift:24-73 | from a new view model, any suggestions on show are exactly the list the completer delivered last |
| SearchProperties.TapIsIdempotent | SetMapPinSample/ContentViewModel.swift:79-119 | tapping the same suggestion twice, with the same search answers, ends in the same state as tapping it once |
| SearchProperties.TokyoTowerScenario | SetMapPinSample/ContentViewModel.swift:45-119 | typing "Tokyo Tower", getting it as a suggestion, tapping it and getting a map item leaves one pin there, a 1/111 span, no suggestions, and text and query both "Tokyo Tower" |
| SearchProperties.ClearingTextClearsSuggestions | SetMapPinSample/ContentViewModel.swift:53-57 | clearing the text, from any state, empties the suggestions and the query at once and does not touch the completer input or the map |
| SearchProperties.FailedLookupKeepsMap | SetMapPinSample/ContentViewModel.swift:96-104 | a submitted search that returns no map item leaves the region and the pin exactly as they were |

## Left out

- The completer's own lookup, and its `resultTypes = .pointOfInterest` configuration (lines 18 and 38-41), are MapKit. Its results enter the model as the argument of `CompleterDidUpdateResults`.
- The local search network lookup, and which map item it ranks first (lines 99-104), are MapKit. The request is returned by `SetPin`, and the response, or its absence, is the argument of `OnSearchResponse`. The `error` argument of the handler is ignored by the code and is not modelled.
- `DispatchQueue.main.async` hops are not modelled. Each callback is one atomic event, applied in the order the events are given.
- `PinItem`'s random `UUID` identity is not modelled. Pins compare by coordinate.
- Floating-point latitudes, longitudes and spans are not modelled. They are copied, never computed, so they are `real` values, and 1/111 is exact.
- The write of the completer input is guarded, as at lines 59-61, and the model keeps the guard. But the model has no completer, so a guarded write and an unconditional one reach the same state. Whether MapKit restarts a lookup on a redundant write is not captured.
- The SwiftUI view (`ContentView.swift`) is not part of this model. It contributes only the two binding writes modelled as events (`LocationEdited` and `RegionMoved`). Its `onChange` call of `onSearchLocation` appears in the event model as the separate `SearchLocation` event.
- SearchState.AfterSearchLocation: text equality is modelled as character-by-character equality of `string` values. Swift's `String ==`, used at lines 47 and 59, treats canonically equivalent Unicode text as equal (a precomposed "é" equals "e" followed by a combining accent). So the model follows the code only for text stored in one normalisation form. Canonically equal text in different encodings takes the other branch here. Unicode normalisation is not part of this model.
- ContentViewModels.ContentViewModel.OnSearchLocation: the same character-by-character comparison stands in for Swift's canonical equivalence at lines 47 and 59, with the same consequence.
