/** `MapKitBoundingBox`: a pair of corner coordinates. */
module BoundingBoxes {
  import opened MapKitTypes
  import opened GeographicRegions
  import opened CoordinateRegion
  import opened RegionUtility

  datatype BoundingBox = BoundingBox(min: Coordinate, max: Coordinate)

  /**
   * `init(displayRegion:)`: the corners `coordinates` gives, so `min` is
   * (fourth number, third number) and `max` is (second, first) of the raw
   * value, and `min` lies north of `max`.
   */
  function FromDisplayRegion(g: GeographicRegion): (box: BoundingBox)
    ensures box.min == Coordinate(RawNumbers(g)[3], RawNumbers(g)[2])
    ensures box.max == Coordinate(RawNumbers(g)[1], RawNumbers(g)[0])
    ensures box.min.latitude > box.max.latitude
  {
    var coordinates := Coordinates(g);
    BoundingBox(coordinates.min, coordinates.max)
  }

  /** The display region's box and its map region are fitted to the same two corners. */
  lemma RegionForFitsBoundingBox(g: GeographicRegion)
    ensures var box := FromDisplayRegion(g);
      RegionFor(g) == FromCoordinates([box.min, box.max])
  {
  }
}
