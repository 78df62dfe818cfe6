/**
 * `MapKitGeographicRegion`: the eight display regions, their short region
 * codes, the case-insensitive code parser, and the two corner coordinates
 * each region's raw value describes.
 */
module GeographicRegions {
  import opened Wrappers
  import opened Strings
  import opened MapKitTypes

  datatype GeographicRegion =
    | Asia
    | Africa
    | NorthAmerica
    | SouthAmerica
    | Antarctica
    | Europe
    | Australia
    | UkAndIreland

  /**
   * The four comma-separated numbers of the region's raw value, in the
   * order they are written there (exact, as `real`s). They read as the
   * west, south, east and north edges of the region.
   */
  function RawNumbers(g: GeographicRegion): seq<real>
  {
    match g
    case Asia => [25.5886467, -12.2118513, -168.97788, 81.9661865]
    case Africa => [-25.383911, -47.1313489, 63.8085939, 37.5359]
    case NorthAmerica => [-172.66113495, 5.4961, -15.51269745, 83.6655766261]
    case SouthAmerica => [-110.0281, -56.1455, -28.650543, 17.6606999]
    case Antarctica => [-180.0, -85.0511287798, 180.0, -60.1086999]
    case Europe => [-25.48824365, 32.5960451596, 74.3555001, 73.1927977675]
    case Australia => [110.9510339, -54.8337658, 159.2872223, -9.1870264]
    case UkAndIreland => [-16.6649026112, 47.7502953806, 4.3354981542, 60.9916781275]
  }

  /**
   * `mapKitRegionCode`: the region's short code, already in upper case and
   * made of ASCII letters only, so it is its own canonical decomposition.
   */
  function RegionCode(g: GeographicRegion): (code: string)
    ensures 2 <= |code| <= 4
    ensures forall i :: 0 <= i < |code| ==> 'A' <= code[i] <= 'Z'
    ensures Uppercased(code) == code
    ensures Decomposed(code) == code
  {
    match g
    case Asia => "AS"
    case Africa => "AF"
    case NorthAmerica => "NA"
    case SouthAmerica => "SA"
    case Antarctica => "AQ"
    case Europe => "EU"
    case Australia => "AU"
    case UkAndIreland => "UKIE"
  }

  /**
   * `from(mapKitRegionCode:)`: the region whose code the upper-cased text
   * equals (as Swift compares strings, up to canonical equivalence), or
   * nothing when the upper-cased text equals none of the eight codes.
   */
  function FromRegionCode(code: string): (r: Option<GeographicRegion>)
    ensures forall g :: r == Some(g) <==> CanonicallyEqual(Uppercased(code), RegionCode(g))
  {
    match Decomposed(Uppercased(code))
    case "AS" => Some(Asia)
    case "AF" => Some(Africa)
    case "NA" => Some(NorthAmerica)
    case "SA" => Some(SouthAmerica)
    case "AQ" => Some(Antarctica)
    case "EU" => Some(Europe)
    case "AU" => Some(Australia)
    case "UKIE" => Some(UkAndIreland)
    case _ => None
  }

  /** The eight codes are pairwise distinct. */
  lemma RegionCodeInjective(g: GeographicRegion, h: GeographicRegion)
    ensures RegionCode(g) == RegionCode(h) ==> g == h
  {
  }

  /** Parsing a region's own code gives the region back. */
  lemma {:induction false} RegionCodeRoundTrip(g: GeographicRegion)
    ensures FromRegionCode(RegionCode(g)) == Some(g)
  {
  }

  /** The parser looks at the upper-cased text only. */
  lemma {:induction false} FromRegionCodeIgnoresCase(s: string, t: string)
    requires Uppercased(s) == Uppercased(t)
    ensures FromRegionCode(s) == FromRegionCode(t)
  {
  }

  /** Upper-casing the text first changes nothing: the parser's upper-casing is idempotent. */
  lemma {:induction false} FromRegionCodeOfUppercased(s: string)
    ensures FromRegionCode(Uppercased(s)) == FromRegionCode(s)
  {
    UppercasedIdempotent(s);
  }

  /**
   * A Kelvin sign in place of the K of "UKIE" still gives UK and Ireland:
   * the upper-cased text is canonically equivalent to the code.
   */
  lemma KelvinSignInCode()
    ensures FromRegionCode("u\U{212A}ie") == Some(UkAndIreland)
  {
    assert Decomposed(Uppercased("u\U{212A}ie")) == "UKIE";
  }

  /** A region's code with any of its letters in lower case still gives the region. */
  lemma {:induction false} FromRegionCodeAnyCase(g: GeographicRegion, s: string)
    requires |s| == |RegionCode(g)|
    requires forall i :: 0 <= i < |s| ==> s[i] == RegionCode(g)[i] || s[i] == LowercaseAscii(RegionCode(g)[i])
    ensures FromRegionCode(s) == Some(g)
  {
    var code := RegionCode(g);
    forall i | 0 <= i < |s|
      ensures UppercaseChar(s[i]) == code[i]
    {
      assert 'A' <= code[i] <= 'Z';
      UppercaseOfLowercase(code[i]);
    }
    assert Uppercased(s) == code;
    assert Decomposed(code) == code;
  }

  /** The pair of corners `coordinates` returns. */
  datatype Corners = Corners(min: Coordinate, max: Coordinate)

  /**
   * `coordinates`: `min` is made of the fourth and third numbers, `max` of
   * the second and first, each as (latitude, longitude). Read against the
   * raw values, `min` is the north-east corner and `max` the south-west
   * one: `min` has the larger latitude in every region.
   */
  function Coordinates(g: GeographicRegion): (corners: Corners)
    ensures corners.min == Coordinate(RawNumbers(g)[3], RawNumbers(g)[2])
    ensures corners.max == Coordinate(RawNumbers(g)[1], RawNumbers(g)[0])
    ensures corners.min.latitude > corners.max.latitude
  {
    var values := RawNumbers(g);
    Corners(
      Coordinate(values[3], values[2]),
      Coordinate(values[1], values[0]))
  }

  /** Every raw value writes proper degrees: longitudes in [-180, 180], latitudes in [-90, 90]. */
  lemma RawNumbersAreDegrees(g: GeographicRegion)
    ensures var c := Coordinates(g);
      && -90.0 <= c.min.latitude <= 90.0 && -90.0 <= c.max.latitude <= 90.0
      && -180.0 <= c.min.longitude <= 180.0 && -180.0 <= c.max.longitude <= 180.0
  {
  }
}
