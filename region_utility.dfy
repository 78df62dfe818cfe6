/**
 * `MapKitRegionUtility.region(for:)`: the map region shown for one of the
 * eight geographic regions, fitted to the region's two corners.
 */
module RegionUtility {
  import opened Wrappers
  import opened MapKitTypes
  import opened GeographicRegions
  import opened CoordinateRegion

  /**
   * `region(for:)`. It always finds a region. Its latitude band is exactly
   * the band between the two corners; its longitude span is at most the
   * plain difference of the corners' longitudes and at most half a turn,
   * and its centre longitude is a proper longitude.
   */
  function RegionFor(g: GeographicRegion): (r: Option<Region>)
    ensures r.Some?
    ensures var c := Coordinates(g);
      && r.value.span.latitudeDelta == Distance(c.min.latitude, c.max.latitude)
      && r.value.center.latitude == (c.min.latitude + c.max.latitude) / 2.0
    ensures var c := Coordinates(g);
      r.value.span.longitudeDelta <= Distance(c.min.longitude, c.max.longitude)
    ensures r.value.span.longitudeDelta <= 180.0
    ensures -180.0 <= r.value.center.longitude <= 180.0
  {
    var c := Coordinates(g);
    RawNumbersAreDegrees(g);
    PairRegionBounds(c.min, c.max);
    FromCoordinates([c.min, c.max])
  }

  /**
   * Asia's corners lie on both sides of the 180th meridian: the shifted
   * computation is narrower and is the one chosen.
   */
  lemma AsiaRegion()
    ensures RegionFor(Asia) == Some(Region(Coordinate(34.8771676, 108.30538335), Span(94.1780378, 165.4334733)))
  {
    var a, b := Coordinate(81.9661865, -168.97788), Coordinate(-12.2118513, 25.5886467);
    assert Coordinates(Asia) == Corners(a, b);
    PairRegion(a, b, Identity, Identity);
    PairRegion(a, b, Transform, InverseTransform);
  }

  /**
   * Antarctica's corners are the two sides of the 180th meridian, which
   * the shift makes one: its region has longitude span 0, centred on 180.
   */
  lemma AntarcticaRegion()
    ensures RegionFor(Antarctica) == Some(Region(Coordinate(-72.5799143399, 180.0), Span(24.9424288798, 0.0)))
  {
    var a, b := Coordinate(-60.1086999, 180.0), Coordinate(-85.0511287798, -180.0);
    assert Coordinates(Antarctica) == Corners(a, b);
    assert Transform(a) == a && Transform(b) == a.(latitude := b.latitude);
    PairRegion(a, b, Identity, Identity);
    PairRegion(a, b, Transform, InverseTransform);
  }

  /**
   * Both of North America's corner longitudes are west ones, so both
   * computations give the same span and the un-shifted one is kept.
   */
  lemma NorthAmericaRegion()
    ensures RegionFor(NorthAmerica) == Some(Region(Coordinate(44.58083831305, -94.0869162), Span(78.1694766261, 157.1484375)))
  {
    var a, b := Coordinate(83.6655766261, -15.51269745), Coordinate(5.4961, -172.66113495);
    assert Coordinates(NorthAmerica) == Corners(a, b);
    assert Transform(a) == Coordinate(83.6655766261, 344.48730255);
    assert Transform(b) == Coordinate(5.4961, 187.33886505);
    PairRegion(a, b, Identity, Identity);
    PairRegion(a, b, Transform, InverseTransform);
    assert Unshifted([a, b]).value.span == Shifted([a, b]).value.span;
  }
}
