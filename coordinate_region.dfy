/**
 * The `MKCoordinateRegion` extension: the region that fits a list of
 * coordinates, computed once as given and once with west longitudes moved
 * a full turn east, keeping whichever is narrower. The second computation
 * is what keeps a box that crosses the 180th meridian from being treated
 * as spanning almost the whole globe.
 */
module CoordinateRegion {
  import opened Wrappers
  import opened MapKitTypes

  // ---------------------------------------------------------------------
  // The two transforms
  // ---------------------------------------------------------------------

  /** The transform `{ $0 }` used for the un-shifted computation. */
  function Identity(c: Coordinate): Coordinate
  {
    c
  }

  /** `transform`: a negative longitude is moved one turn east, into [0, 360). */
  function Transform(c: Coordinate): (t: Coordinate)
    ensures t.latitude == c.latitude
    ensures t != c <==> c.longitude < 0.0
    ensures t.longitude == c.longitude || t.longitude == c.longitude + 360.0
    ensures -360.0 <= c.longitude ==> 0.0 <= t.longitude
    ensures c.longitude < 360.0 ==> t.longitude < 360.0
  {
    if c.longitude < 0.0 then Coordinate(c.latitude, c.longitude + 360.0) else c
  }

  /** `inverseTransform`: a longitude past 180 is moved one turn west. */
  function InverseTransform(c: Coordinate): (t: Coordinate)
    ensures t.latitude == c.latitude
    ensures t != c <==> c.longitude > 180.0
    ensures t.longitude == c.longitude || t.longitude == c.longitude - 360.0
    ensures c.longitude <= 540.0 ==> t.longitude <= 180.0
    ensures -180.0 < c.longitude ==> -180.0 < t.longitude
  {
    if c.longitude > 180.0 then Coordinate(c.latitude, c.longitude - 360.0) else c
  }

  /** The inverse undoes the transform exactly on the longitudes (-180, 180]. */
  lemma InverseTransformUndoesTransform(c: Coordinate)
    ensures InverseTransform(Transform(c)) == c <==> -180.0 < c.longitude <= 180.0
  {
  }

  /** The transform undoes the inverse exactly on the longitudes [0, 360). */
  lemma TransformUndoesInverseTransform(c: Coordinate)
    ensures Transform(InverseTransform(c)) == c <==> 0.0 <= c.longitude < 360.0
  {
  }

  /** The one proper longitude the round trip changes: -180 comes back as 180. */
  lemma RoundTripAtWestAntimeridian(c: Coordinate)
    requires c.longitude == -180.0
    ensures InverseTransform(Transform(c)) == Coordinate(c.latitude, 180.0)
  {
  }

  // ---------------------------------------------------------------------
  // Extremes of a list of numbers
  // ---------------------------------------------------------------------

  predicate IsLeast(m: real, xs: seq<real>)
  {
    m in xs && forall k :: 0 <= k < |xs| ==> m <= xs[k]
  }

  predicate IsGreatest(m: real, xs: seq<real>)
  {
    m in xs && forall k :: 0 <= k < |xs| ==> xs[k] <= m
  }

  /**
   * The value of `min(by:)` over a list: the running minimum from the
   * front, replaced only by a strictly smaller element.
   */
  function Least(xs: seq<real>): (m: Option<real>)
    ensures m.None? <==> |xs| == 0
    ensures m.Some? ==> IsLeast(m.value, xs)
  {
    if |xs| == 0 then None
    else
      var init, last := xs[..|xs| - 1], xs[|xs| - 1];
      assert xs == init + [last];
      match Least(init)
      case None => Some(last)
      case Some(m) => Some(if last < m then last else m)
  }

  /**
   * The value of `max(by:)` over a list: the running maximum from the
   * front, replaced by every element that is not below it.
   */
  function Greatest(xs: seq<real>): (m: Option<real>)
    ensures m.None? <==> |xs| == 0
    ensures m.Some? ==> IsGreatest(m.value, xs)
  {
    if |xs| == 0 then None
    else
      var init, last := xs[..|xs| - 1], xs[|xs| - 1];
      assert xs == init + [last];
      match Greatest(init)
      case None => Some(last)
      case Some(m) => Some(if last < m then m else last)
  }

  /** A list has only one least and one greatest element, and the first is at most the second. */
  lemma ExtremesUnique(xs: seq<real>, a: real, b: real)
    ensures IsLeast(a, xs) && IsLeast(b, xs) ==> a == b
    ensures IsGreatest(a, xs) && IsGreatest(b, xs) ==> a == b
    ensures IsLeast(a, xs) && IsGreatest(b, xs) ==> a <= b
  {
  }

  /** In a list of two, the greatest minus the least is the distance between the two. */
  lemma PairSpread(x: real, y: real, lo: real, hi: real)
    requires IsLeast(lo, [x, y]) && IsGreatest(hi, [x, y])
    ensures hi - lo == Distance(x, y)
    ensures lo + hi == x + y
  {
    var xs := [x, y];
    assert xs[0] == x && xs[1] == y;
    assert lo == x || lo == y;
    assert hi == x || hi == y;
  }

  // ---------------------------------------------------------------------
  // Sequences of coordinates
  // ---------------------------------------------------------------------

  /** `coordinates.map(transform)`. */
  function Apply(f: Coordinate -> Coordinate, cs: seq<Coordinate>): seq<Coordinate>
  {
    seq(|cs|, k requires 0 <= k < |cs| => f(cs[k]))
  }

  function Latitudes(cs: seq<Coordinate>): seq<real>
  {
    seq(|cs|, k requires 0 <= k < |cs| => cs[k].latitude)
  }

  function Longitudes(cs: seq<Coordinate>): seq<real>
  {
    seq(|cs|, k requires 0 <= k < |cs| => cs[k].longitude)
  }

  /**
   * `low` holds the least latitude and the least longitude of `ts`, `high`
   * the greatest of each: the corners of the smallest box around them.
   */
  predicate Extremes(ts: seq<Coordinate>, low: Coordinate, high: Coordinate)
  {
    && IsLeast(low.latitude, Latitudes(ts))
    && IsGreatest(high.latitude, Latitudes(ts))
    && IsLeast(low.longitude, Longitudes(ts))
    && IsGreatest(high.longitude, Longitudes(ts))
  }

  /**
   * `region` is the box of `ts` with corners `low` and `high`: its span is
   * their extent and its centre their midpoint, mapped by `inverseTransform`.
   */
  predicate IsBoxRegion(
    region: Region, ts: seq<Coordinate>, inverseTransform: Coordinate -> Coordinate,
    low: Coordinate, high: Coordinate)
  {
    && Extremes(ts, low, high)
    && region.span == Span(high.latitude - low.latitude, high.longitude - low.longitude)
    && region.center == inverseTransform(Coordinate((low.latitude + high.latitude) / 2.0, (low.longitude + high.longitude) / 2.0))
  }

  /** `region` is the box of `ts` for some pair of corners. */
  ghost predicate IsBoxOf(region: Region, ts: seq<Coordinate>, inverseTransform: Coordinate -> Coordinate)
  {
    exists low, high :: IsBoxRegion(region, ts, inverseTransform, low, high)
  }

  // ---------------------------------------------------------------------
  // mapKitRegion(for:transform:inverseTransform:)
  // ---------------------------------------------------------------------

  /**
   * `mapKitRegion(for:transform:inverseTransform:)`. No coordinates give no
   * region; one coordinate gives a region centred on it with span (1, 1),
   * untransformed. Two or more are transformed; the span is the extent of
   * the transformed coordinates and the centre is the midpoint of their
   * box, mapped back by `inverseTransform`.
   */
  function MapKitRegion(
    coords: seq<Coordinate>,
    transform: Coordinate -> Coordinate,
    inverseTransform: Coordinate -> Coordinate): (r: Option<Region>)
    ensures r.None? <==> |coords| == 0
    ensures |coords| == 1 ==> r == Some(Region(coords[0], Span(1.0, 1.0)))
    ensures |coords| >= 2 ==> IsBoxOf(r.value, Apply(transform, coords), inverseTransform)
  {
    if |coords| == 0 then None
    else if |coords| == 1 then Some(Region(coords[0], Span(1.0, 1.0)))
    else
      var transformed := Apply(transform, coords);
      BoxRegionIsBox(transformed, inverseTransform);
      Some(BoxRegion(transformed, inverseTransform))
  }

  /**
   * The region of two or more transformed coordinates: the span from the
   * least to the greatest latitude and longitude, the centre half a span
   * back from the greatest, mapped by `inverseTransform`.
   */
  function BoxRegion(transformed: seq<Coordinate>, inverseTransform: Coordinate -> Coordinate): Region
    requires |transformed| > 0
  {
    CornersRegion(Bounds(transformed), inverseTransform)
  }

  function CornersRegion(box: (Coordinate, Coordinate), inverseTransform: Coordinate -> Coordinate): Region
  {
    var minLat, maxLat, minLon, maxLon := box.0.latitude, box.1.latitude, box.0.longitude, box.1.longitude;
    var span := Span(maxLat - minLat, maxLon - minLon);
    var center := inverseTransform(Coordinate(maxLat - span.latitudeDelta / 2.0, maxLon - span.longitudeDelta / 2.0));
    Region(center, span)
  }

  lemma BoxRegionIsBox(ts: seq<Coordinate>, inverseTransform: Coordinate -> Coordinate)
    requires |ts| > 0
    ensures IsBoxOf(BoxRegion(ts, inverseTransform), ts, inverseTransform)
  {
    var box := Bounds(ts);
    var minLat, maxLat, minLon, maxLon := box.0.latitude, box.1.latitude, box.0.longitude, box.1.longitude;
    assert maxLat - (maxLat - minLat) / 2.0 == (minLat + maxLat) / 2.0;
    assert maxLon - (maxLon - minLon) / 2.0 == (minLon + maxLon) / 2.0;
    assert IsBoxRegion(BoxRegion(ts, inverseTransform), ts, inverseTransform, box.0, box.1);
  }

  /** Two or more coordinates get the box region of their transformed list. */
  lemma MapKitRegionOfMany(coords: seq<Coordinate>, transform: Coordinate -> Coordinate, inverseTransform: Coordinate -> Coordinate)
    requires |coords| >= 2
    ensures MapKitRegion(coords, transform, inverseTransform) == Some(BoxRegion(Apply(transform, coords), inverseTransform))
  {
  }

  /**
   * The four `min(by:)`/`max(by:)` values over the transformed coordinates,
   * as the low and the high corner of their box.
   */
  function Bounds(ts: seq<Coordinate>): (box: (Coordinate, Coordinate))
    requires |ts| > 0
    ensures Extremes(ts, box.0, box.1)
  {
    var lats, lons := Latitudes(ts), Longitudes(ts);
    (Coordinate(Least(lats).value, Least(lons).value), Coordinate(Greatest(lats).value, Greatest(lons).value))
  }

  /** The un-shifted computation (`primeRegion`). */
  function Unshifted(coords: seq<Coordinate>): Option<Region>
  {
    MapKitRegion(coords, Identity, Identity)
  }

  /** The computation with west longitudes moved one turn east (`transformedRegion`). */
  function Shifted(coords: seq<Coordinate>): Option<Region>
  {
    MapKitRegion(coords, Transform, InverseTransform)
  }

  /** Both spans of a computed region are non-negative. */
  lemma SpansNonNegative(coords: seq<Coordinate>, transform: Coordinate -> Coordinate, inverseTransform: Coordinate -> Coordinate)
    requires |coords| > 0
    ensures var r := MapKitRegion(coords, transform, inverseTransform).value;
      r.span.latitudeDelta >= 0.0 && r.span.longitudeDelta >= 0.0
  {
    if |coords| >= 2 {
      var ts := Apply(transform, coords);
      var r := MapKitRegion(coords, transform, inverseTransform).value;
      assert IsBoxOf(r, ts, inverseTransform);
      var low, high :| IsBoxRegion(r, ts, inverseTransform, low, high);
      ExtremesUnique(Latitudes(ts), low.latitude, high.latitude);
      ExtremesUnique(Longitudes(ts), low.longitude, high.longitude);
    }
  }

  // ---------------------------------------------------------------------
  // [a, b].min(by: { $0.span.longitudeDelta < $1.span.longitudeDelta })
  // ---------------------------------------------------------------------

  /**
   * The position `min(by:)` settles on when comparing longitude spans: the
   * first region whose longitude span is least.
   */
  function FirstNarrowestIndex(rs: seq<Region>): (i: nat)
    requires |rs| > 0
    ensures i < |rs|
    ensures forall j :: 0 <= j < |rs| ==> rs[i].span.longitudeDelta <= rs[j].span.longitudeDelta
    ensures forall j :: 0 <= j < i ==> rs[i].span.longitudeDelta < rs[j].span.longitudeDelta
  {
    if |rs| == 1 then 0
    else
      var i := FirstNarrowestIndex(rs[..|rs| - 1]);
      if rs[|rs| - 1].span.longitudeDelta < rs[i].span.longitudeDelta then |rs| - 1 else i
  }

  /** `min(by:)` on longitude span: nothing for no regions, else the first narrowest. */
  function NarrowestByLongitude(rs: seq<Region>): (r: Option<Region>)
    ensures r.None? <==> |rs| == 0
    ensures r.Some? ==> r.value in rs && forall j :: 0 <= j < |rs| ==> r.value.span.longitudeDelta <= rs[j].span.longitudeDelta
    ensures |rs| == 2 ==> r == Some(if rs[1].span.longitudeDelta < rs[0].span.longitudeDelta then rs[1] else rs[0])
  {
    if |rs| == 0 then None else Some(rs[FirstNarrowestIndex(rs)])
  }

  // ---------------------------------------------------------------------
  // init?(coordinates:)
  // ---------------------------------------------------------------------

  /**
   * `init?(coordinates:)`: both computations, and the one with the smaller
   * longitude span, the un-shifted one on a tie.
   */
  function FromCoordinates(coords: seq<Coordinate>): (r: Option<Region>)
    ensures r.None? <==> |coords| == 0
    ensures |coords| == 1 ==> r == Some(Region(coords[0], Span(1.0, 1.0)))
    ensures r.Some? ==> r == Unshifted(coords) || r == Shifted(coords)
    ensures r.Some? ==> r.value.span.longitudeDelta <= Unshifted(coords).value.span.longitudeDelta
    ensures r.Some? ==> r.value.span.longitudeDelta <= Shifted(coords).value.span.longitudeDelta
    ensures r.Some? && Unshifted(coords).value.span.longitudeDelta <= Shifted(coords).value.span.longitudeDelta ==> r == Unshifted(coords)
  {
    var primeRegion := MapKitRegion(coords, Identity, Identity);
    var transformedRegion := MapKitRegion(coords, Transform, InverseTransform);
    if primeRegion.Some? && transformedRegion.Some? then
      NarrowestByLongitude([primeRegion.value, transformedRegion.value]).OrElse(primeRegion.OrElse(transformedRegion))
    else
      primeRegion.OrElse(transformedRegion)
  }

  // ---------------------------------------------------------------------
  // Properties of the chosen region
  // ---------------------------------------------------------------------

  /** The distance between two numbers. */
  function Distance(x: real, y: real): real
  {
    if x <= y then y - x else x - y
  }

  /** A transform that keeps every latitude keeps the list of latitudes. */
  lemma LatitudesKept(f: Coordinate -> Coordinate, coords: seq<Coordinate>)
    requires forall c :: f(c).latitude == c.latitude
    ensures Latitudes(Apply(f, coords)) == Latitudes(coords)
  {
  }

  /**
   * Whichever computation is chosen, the latitude span is the distance from
   * the least to the greatest latitude given, and the centre latitude is
   * their midpoint: nothing the transforms do reaches the latitudes.
   */
  lemma {:induction false} FromCoordinatesLatitudeBand(coords: seq<Coordinate>, lo: real, hi: real)
    requires |coords| >= 2
    requires IsLeast(lo, Latitudes(coords)) && IsGreatest(hi, Latitudes(coords))
    ensures var r := FromCoordinates(coords).value;
      r.span.latitudeDelta == hi - lo && r.center.latitude == (lo + hi) / 2.0
  {
    var r := FromCoordinates(coords).value;
    if r == Unshifted(coords).value {
      LatitudeBandOf(coords, Identity, Identity, lo, hi);
    } else {
      LatitudeBandOf(coords, Transform, InverseTransform, lo, hi);
    }
  }

  lemma {:induction false} LatitudeBandOf(
    coords: seq<Coordinate>, transform: Coordinate -> Coordinate, inverseTransform: Coordinate -> Coordinate,
    lo: real, hi: real)
    requires |coords| >= 2
    requires forall c :: transform(c).latitude == c.latitude
    requires forall c :: inverseTransform(c).latitude == c.latitude
    requires IsLeast(lo, Latitudes(coords)) && IsGreatest(hi, Latitudes(coords))
    ensures var r := MapKitRegion(coords, transform, inverseTransform).value;
      r.span.latitudeDelta == hi - lo && r.center.latitude == (lo + hi) / 2.0
  {
    var ts := Apply(transform, coords);
    var r := MapKitRegion(coords, transform, inverseTransform).value;
    assert IsBoxOf(r, ts, inverseTransform);
    var low, high :| IsBoxRegion(r, ts, inverseTransform, low, high);
    LatitudesKept(transform, coords);
    ExtremesUnique(Latitudes(coords), low.latitude, lo);
    ExtremesUnique(Latitudes(coords), high.latitude, hi);
  }

  /** Every longitude lies in [-180, 180]. */
  predicate ProperLongitudes(coords: seq<Coordinate>)
  {
    forall k :: 0 <= k < |coords| ==> -180.0 <= coords[k].longitude <= 180.0
  }

  /** Given longitudes in [-180, 180], the chosen centre longitude is in [-180, 180] as well. */
  lemma {:induction false} FromCoordinatesCenterLongitude(coords: seq<Coordinate>)
    requires |coords| > 0 && ProperLongitudes(coords)
    ensures -180.0 <= FromCoordinates(coords).value.center.longitude <= 180.0
  {
    if |coords| >= 2 {
      if FromCoordinates(coords) == Unshifted(coords) {
        UnshiftedCenterLongitude(coords);
      } else {
        ShiftedCenterLongitude(coords);
      }
    }
  }

  lemma {:induction false} UnshiftedCenterLongitude(coords: seq<Coordinate>)
    requires |coords| >= 2 && ProperLongitudes(coords)
    ensures -180.0 <= MapKitRegion(coords, Identity, Identity).value.center.longitude <= 180.0
  {
    var ts := Apply(Identity, coords);
    var r := MapKitRegion(coords, Identity, Identity).value;
    assert IsBoxOf(r, ts, Identity);
    var low, high :| IsBoxRegion(r, ts, Identity, low, high);
    var lons := Longitudes(ts);
    assert forall k :: 0 <= k < |lons| ==> -180.0 <= lons[k] <= 180.0;
    assert -180.0 <= low.longitude <= 180.0 && -180.0 <= high.longitude <= 180.0;
  }

  lemma {:induction false} ShiftedCenterLongitude(coords: seq<Coordinate>)
    requires |coords| >= 2 && ProperLongitudes(coords)
    ensures var box := Bounds(Apply(Transform, coords));
      0.0 <= (box.0.longitude + box.1.longitude) / 2.0 < 360.0
    ensures -180.0 <= MapKitRegion(coords, Transform, InverseTransform).value.center.longitude <= 180.0
  {
    var ts := Apply(Transform, coords);
    var box := Bounds(ts);
    var r := MapKitRegion(coords, Transform, InverseTransform).value;
    assert IsBoxOf(r, ts, InverseTransform);
    var low, high :| IsBoxRegion(r, ts, InverseTransform, low, high);
    var lons := Longitudes(ts);
    assert forall k :: 0 <= k < |lons| ==> 0.0 <= lons[k] < 360.0;
    assert 0.0 <= low.longitude < 360.0 && 0.0 <= high.longitude < 360.0;
    assert 0.0 <= box.0.longitude < 360.0 && 0.0 <= box.1.longitude < 360.0;
  }

  /**
   * The region of two coordinates, written out: the centre is the midpoint
   * of the two transformed coordinates, mapped back, and the spans are
   * their distances.
   */
  lemma {:induction false} PairRegion(
    a: Coordinate, b: Coordinate, transform: Coordinate -> Coordinate, inverseTransform: Coordinate -> Coordinate)
    ensures var ta, tb := transform(a), transform(b);
      MapKitRegion([a, b], transform, inverseTransform) == Some(Region(
        inverseTransform(Coordinate((ta.latitude + tb.latitude) / 2.0, (ta.longitude + tb.longitude) / 2.0)),
        Span(Distance(ta.latitude, tb.latitude), Distance(ta.longitude, tb.longitude))))
  {
    var ta, tb := transform(a), transform(b);
    assert Apply(transform, [a, b]) == [ta, tb];
    MapKitRegionOfMany([a, b], transform, inverseTransform);
    PairBounds(ta, tb);
    PairCornersRegion(Bounds([ta, tb]), ta, tb, inverseTransform);
  }

  /** The region of a pair's box, from the sums and the differences of its corners. */
  lemma PairCornersRegion(box: (Coordinate, Coordinate), p: Coordinate, q: Coordinate, inverseTransform: Coordinate -> Coordinate)
    requires box.1.latitude - box.0.latitude == Distance(p.latitude, q.latitude)
    requires box.0.latitude + box.1.latitude == p.latitude + q.latitude
    requires box.1.longitude - box.0.longitude == Distance(p.longitude, q.longitude)
    requires box.0.longitude + box.1.longitude == p.longitude + q.longitude
    ensures CornersRegion(box, inverseTransform) == Region(
      inverseTransform(Coordinate((p.latitude + q.latitude) / 2.0, (p.longitude + q.longitude) / 2.0)),
      Span(Distance(p.latitude, q.latitude), Distance(p.longitude, q.longitude)))
  {
  }

  /** The corners of the box around two coordinates. */
  lemma {:induction false} PairBounds(p: Coordinate, q: Coordinate)
    ensures var box := Bounds([p, q]);
      && box.1.latitude - box.0.latitude == Distance(p.latitude, q.latitude)
      && box.0.latitude + box.1.latitude == p.latitude + q.latitude
      && box.1.longitude - box.0.longitude == Distance(p.longitude, q.longitude)
      && box.0.longitude + box.1.longitude == p.longitude + q.longitude
  {
    var box := Bounds([p, q]);
    assert Latitudes([p, q]) == [p.latitude, q.latitude];
    assert Longitudes([p, q]) == [p.longitude, q.longitude];
    PairSpread(p.latitude, q.latitude, box.0.latitude, box.1.latitude);
    PairSpread(p.longitude, q.longitude, box.0.longitude, box.1.longitude);
  }

  /**
   * For two coordinates with longitudes in [-180, 180] the chosen longitude
   * span is at most half a turn: whichever way round is shorter is taken.
   */
  lemma {:induction false} PairLongitudeSpanAtMostHalfTurn(a: Coordinate, b: Coordinate)
    requires -180.0 <= a.longitude <= 180.0 && -180.0 <= b.longitude <= 180.0
    ensures FromCoordinates([a, b]).value.span.longitudeDelta <= 180.0
    ensures FromCoordinates([a, b]).value.span.longitudeDelta <= Distance(a.longitude, b.longitude)
  {
    PairRegion(a, b, Identity, Identity);
    PairRegion(a, b, Transform, InverseTransform);
  }

  /**
   * The region of two coordinates with proper longitudes: its latitude band
   * is the one between them, and its longitude span is at most their plain
   * longitude difference and at most half a turn, around a proper centre
   * longitude.
   */
  lemma {:induction false} PairRegionBounds(a: Coordinate, b: Coordinate)
    requires -180.0 <= a.longitude <= 180.0 && -180.0 <= b.longitude <= 180.0
    ensures FromCoordinates([a, b]).Some?
    ensures var r := FromCoordinates([a, b]).value;
      && r.span.latitudeDelta == Distance(a.latitude, b.latitude)
      && r.center.latitude == (a.latitude + b.latitude) / 2.0
      && r.span.longitudeDelta <= Distance(a.longitude, b.longitude)
      && r.span.longitudeDelta <= 180.0
      && -180.0 <= r.center.longitude <= 180.0
  {
    PairLatitudeBand(a, b);
    PairLongitudeSpanAtMostHalfTurn(a, b);
    assert ProperLongitudes([a, b]);
    FromCoordinatesCenterLongitude([a, b]);
  }

  /** The latitude band of the region of two coordinates is the one between them. */
  lemma {:induction false} PairLatitudeBand(a: Coordinate, b: Coordinate)
    ensures var r := FromCoordinates([a, b]).value;
      && r.span.latitudeDelta == Distance(a.latitude, b.latitude)
      && r.center.latitude == (a.latitude + b.latitude) / 2.0
  {
    PairRegion(a, b, Identity, Identity);
    PairRegion(a, b, Transform, InverseTransform);
  }

  // ---------------------------------------------------------------------
  // The order of the coordinates does not matter
  // ---------------------------------------------------------------------

  /** Least and greatest depend only on which numbers occur in a list. */
  lemma {:induction false} ExtremesOfSameElements(xs: seq<real>, ys: seq<real>, m: real)
    requires forall x :: x in xs <==> x in ys
    ensures IsLeast(m, xs) ==> IsLeast(m, ys)
    ensures IsGreatest(m, xs) ==> IsGreatest(m, ys)
  {
    forall k | 0 <= k < |ys|
      ensures ys[k] in xs
    {
      var y := ys[k];
      assert y in ys;
      assert y in xs;
    }
  }

  /** Transforming two lists with the same coordinates gives two lists with the same coordinates. */
  lemma {:induction false} ApplyOfSameElements(f: Coordinate -> Coordinate, cs: seq<Coordinate>, ds: seq<Coordinate>)
    requires forall c :: c in cs <==> c in ds
    ensures forall t :: t in Apply(f, cs) ==> t in Apply(f, ds)
  {
    forall t | t in Apply(f, cs)
      ensures t in Apply(f, ds)
    {
      var k :| 0 <= k < |cs| && Apply(f, cs)[k] == t;
      var c := cs[k];
      assert c in cs;
      var j :| 0 <= j < |ds| && ds[j] == c;
      assert Apply(f, ds)[j] == t;
    }
  }

  lemma {:induction false} LatitudeMembers(ts: seq<Coordinate>, x: real)
    ensures x in Latitudes(ts) <==> exists t :: t in ts && t.latitude == x
  {
    if x in Latitudes(ts) {
      var k :| 0 <= k < |ts| && Latitudes(ts)[k] == x;
      assert ts[k] in ts;
    }
    if exists t :: t in ts && t.latitude == x {
      var t :| t in ts && t.latitude == x;
      var k :| 0 <= k < |ts| && ts[k] == t;
      assert Latitudes(ts)[k] == x;
    }
  }

  lemma {:induction false} LongitudeMembers(ts: seq<Coordinate>, x: real)
    ensures x in Longitudes(ts) <==> exists t :: t in ts && t.longitude == x
  {
    if x in Longitudes(ts) {
      var k :| 0 <= k < |ts| && Longitudes(ts)[k] == x;
      assert ts[k] in ts;
    }
    if exists t :: t in ts && t.longitude == x {
      var t :| t in ts && t.longitude == x;
      var k :| 0 <= k < |ts| && ts[k] == t;
      assert Longitudes(ts)[k] == x;
    }
  }

  /** Two lists with the same coordinates in them have the same box. */
  lemma {:induction false} BoundsOfSameElements(ts: seq<Coordinate>, us: seq<Coordinate>)
    requires |ts| > 0 && |us| > 0
    requires forall t :: t in ts <==> t in us
    ensures Bounds(ts) == Bounds(us)
  {
    forall x
      ensures x in Latitudes(ts) <==> x in Latitudes(us)
      ensures x in Longitudes(ts) <==> x in Longitudes(us)
    {
      LatitudeMembers(ts, x);
      LatitudeMembers(us, x);
      LongitudeMembers(ts, x);
      LongitudeMembers(us, x);
    }
    var a, b := Bounds(ts), Bounds(us);
    ExtremesOfSameElements(Latitudes(ts), Latitudes(us), a.0.latitude);
    ExtremesOfSameElements(Latitudes(ts), Latitudes(us), a.1.latitude);
    ExtremesOfSameElements(Longitudes(ts), Longitudes(us), a.0.longitude);
    ExtremesOfSameElements(Longitudes(ts), Longitudes(us), a.1.longitude);
    ExtremesUnique(Latitudes(us), a.0.latitude, b.0.latitude);
    ExtremesUnique(Latitudes(us), a.1.latitude, b.1.latitude);
    ExtremesUnique(Longitudes(us), a.0.longitude, b.0.longitude);
    ExtremesUnique(Longitudes(us), a.1.longitude, b.1.longitude);
  }

  /**
   * Two lists of at least two coordinates each, holding the same
   * coordinates (in any order, any number of times), give the same region.
   */
  lemma {:induction false} MapKitRegionOfSameElements(
    cs: seq<Coordinate>, ds: seq<Coordinate>,
    transform: Coordinate -> Coordinate, inverseTransform: Coordinate -> Coordinate)
    requires |cs| >= 2 && |ds| >= 2
    requires forall c :: c in cs <==> c in ds
    ensures MapKitRegion(cs, transform, inverseTransform) == MapKitRegion(ds, transform, inverseTransform)
  {
    var ts, us := Apply(transform, cs), Apply(transform, ds);
    ApplyOfSameElements(transform, cs, ds);
    ApplyOfSameElements(transform, ds, cs);
    BoundsOfSameElements(ts, us);
    MapKitRegionOfMany(cs, transform, inverseTransform);
    MapKitRegionOfMany(ds, transform, inverseTransform);
  }

  /** So is the region `init?(coordinates:)` chooses. */
  lemma {:induction false} FromCoordinatesOfSameElements(cs: seq<Coordinate>, ds: seq<Coordinate>)
    requires |cs| >= 2 && |ds| >= 2
    requires forall c :: c in cs <==> c in ds
    ensures FromCoordinates(cs) == FromCoordinates(ds)
  {
    MapKitRegionOfSameElements(cs, ds, Identity, Identity);
    MapKitRegionOfSameElements(cs, ds, Transform, InverseTransform);
  }
}
