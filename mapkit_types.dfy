/**
 * The MapKit value types the region utility works with. Degrees are exact
 * `real`s here; on the device they are `Double`s.
 */
module MapKitTypes {

  /** `CLLocationCoordinate2D`: a latitude and a longitude, in degrees. */
  datatype Coordinate = Coordinate(latitude: real, longitude: real)

  /** `MKCoordinateSpan`: the height and width of a region, in degrees. */
  datatype Span = Span(latitudeDelta: real, longitudeDelta: real)

  /** `MKCoordinateRegion`: a centre and a span around it. */
  datatype Region = Region(center: Coordinate, span: Span)
}
