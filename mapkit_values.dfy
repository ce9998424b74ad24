/**
 The MapKit and CoreLocation values the view model handles. Latitudes,
 longitudes and spans are only copied around, so they are modelled as `real`
 values; a search response is reduced to the part the view model reads (the
 placemark of each map item and that placemark's optional location).
 */
module MapKitValues {

  datatype Option<+T> = None | Some(value: T)

  /** A `CLLocationCoordinate2D`. */
  datatype Coordinate = Coordinate(latitude: real, longitude: real)

  /** An `MKCoordinateSpan`, in degrees. */
  datatype Span = Span(latitudeDelta: real, longitudeDelta: real)

  /** An `MKCoordinateRegion`: the centre of the map and its span. */
  datatype Region = Region(center: Coordinate, span: Span)

  /** A map pin; its random identity is not part of the model, so pins compare by coordinate. */
  datatype PinItem = PinItem(coordinate: Coordinate)

  /** One suggestion of the local search completer. */
  datatype Completion = Completion(title: string, subtitle: string)

  /** A placemark; `location` is absent when MapKit has no location for it. */
  datatype Placemark = Placemark(location: Option<Coordinate>)

  datatype MapItem = MapItem(placemark: Placemark)

  /** What the local search hands to its completion handler when it has a response. */
  datatype SearchResponse = SearchResponse(mapItems: seq<MapItem>)

  /** A local search request: the free-text query sent to the geocoder. */
  datatype SearchRequest = SearchRequest(naturalLanguageQuery: string)

  /** One degree is about 111 km, so a span of 1/111 degree shows about one kilometre. */
  const PinSpanDegrees: real := 1.0 / 111.0

  /** The map's starting centre and its continental span. */
  const DefaultRegion: Region := Region(Coordinate(35.6586, 139.7454), Span(100.0, 100.0))

  /** The placemark of the first map item of a response, if there is a response and it has an item. */
  function FirstPlacemark(response: Option<SearchResponse>): (p: Option<Placemark>)
    ensures p.Some? <==> response.Some? && |response.value.mapItems| > 0
    ensures p.Some? ==> p.value == response.value.mapItems[0].placemark
  {
    match response
    case None => None
    case Some(r) => if |r.mapItems| == 0 then None else Some(r.mapItems[0].placemark)
  }

  /** The coordinate read from a placemark: its location, or latitude and longitude 0.0 when it has none. */
  function PlacemarkCoordinate(p: Placemark): (c: Coordinate)
    ensures p.location.Some? ==> c == p.location.value
    ensures p.location.None? ==> c.latitude == 0.0 && c.longitude == 0.0
  {
    match p.location
    case Some(loc) => loc
    case None => Coordinate(0.0, 0.0)
  }

  /** The region shown once a pin is placed: centred on the pin, about one kilometre across. */
  function PinRegion(c: Coordinate): (r: Region)
    ensures r.center == c
    ensures r.span.latitudeDelta == r.span.longitudeDelta == PinSpanDegrees
  {
    Region(c, Span(PinSpanDegrees, PinSpanDegrees))
  }
}
