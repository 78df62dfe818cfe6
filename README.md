# MapKit region utility, modelled in Dafny

The iOS side of the search-completion plugin carries one piece of real logic,
`ios/Classes/MapKitRegionUtility.swift`. It names eight geographic display
regions (Asia, Africa, North America, South America, Antarctica, Europe,
Australia, UK and Ireland), gives each a short region code, parses such a code
back ignoring case, and turns each region's raw value — four comma-separated
numbers — into two corner coordinates. From those corners it fits an
`MKCoordinateRegion` (a centre plus a latitude/longitude span). The fitting is
antimeridian-aware: the box is computed once on the longitudes as given and once
with every west (negative) longitude moved a full turn east, and the narrower of
the two is kept, so a region crossing the 180th meridian is not drawn as
spanning almost the whole globe.

Modules:

- `Wrappers` — `Option`, with Swift's `??` as `OrElse`.
- `Strings` — `String.uppercased()` and Swift's string `==` (canonical
  equivalence), as far as they can produce or match ASCII letters.
- `MapKitTypes` — `Coordinate` (`CLLocationCoordinate2D`), `Span`
  (`MKCoordinateSpan`) and `Region` (`MKCoordinateRegion`), with exact `real`
  degrees.
- `GeographicRegions` — `MapKitGeographicRegion`: codes, the parser, and
  `coordinates`.
- `CoordinateRegion` — the `MKCoordinateRegion` extension: `transform`,
  `inverseTransform`, `mapKitRegion(for:transform:inverseTransform:)` and
  `init?(coordinates:)`.
- `RegionUtility` — `MapKitRegionUtility.region(for:)`.
- `BoundingBoxes` — `MapKitBoundingBox.init(displayRegion:)`.

Notes on the code:

- `init?(coordinates:)` calls `MKCoordinateRegion.region(for:transform:inverseTransform:)`
  at lines 82 and 88. The only such helper in the file is declared as
  `mapKitRegion(for:transform:inverseTransform:)` at line 113, so both calls are
  modelled as calls to it.
- `coordinates` names its corners `min` and `max`. Against the raw values (west
  longitude, south latitude, east longitude, north latitude), `min` is the
  north-east corner and `max` the south-west one. The contract of
  `Coordinates` states this for every region. Nothing depends on the names: the region is
  fitted to both corners, and the fit does not depend on their order
  (`FromCoordinatesOfSameElements`).
- Antarctica's corners have longitudes 180 and -180. The shift makes these the
  same longitude, so its region has longitude span 0 and is centred on
  longitude 180 (`AntarcticaRegion`).

## Model

| member | source | states |
|---|---|---|
| Wrappers.Option.OrElse | ios/Classes/MapKitRegionUtility.swift:98 | `a ?? b` is `a` when it is present, else `b`; it is nil only when both are nil |
| Strings.Uppercased | ios/Classes/MapKitRegionUtility.swift:49 | the modelled upper-casing maps one character to one character, so it keeps the length; it leaves no ASCII lower-case letter and keeps ASCII upper-case letters |
| Strings.CanonicallyEqual | ios/Classes/MapKitRegionUtility.swift:49-57 | Swift's string `==` on the upper-cased text: equivalent strings have the same length, and when neither holds a Kelvin sign, equivalence is plain equality |
| GeographicRegions.RegionCode | ios/Classes/MapKitRegionUtility.swift:35-46 | every region code is 2 to 4 ASCII upper-case letters, so upper-casing it or decomposing it changes nothing |
| GeographicRegions.RegionCodeInjective | ios/Classes/MapKitRegionUtility.swift:35-46 | no two regions share a code |
| GeographicRegions.FromRegionCode | ios/Classes/MapKitRegionUtility.swift:48-60 | the parser gives region `g` exactly when the upper-cased input is canonically equivalent to `g`'s code (Swift's string `==`); for any other input it gives nil |
| GeographicRegions.RegionCodeRoundTrip | ios/Classes/MapKitRegionUtility.swift:35-60 | parsing a region's code gives that region back |
| GeographicRegions.FromRegionCodeIgnoresCase | ios/Classes/MapKitRegionUtility.swift:48-59 | two inputs that upper-case alike parse alike |
| GeographicRegions.FromRegionCodeOfUppercased | ios/Classes/MapKitRegionUtility.swift:49 | parsing the upper-cased text gives the same result as parsing the text |
| GeographicRegions.FromRegionCodeAnyCase | ios/Classes/MapKitRegionUtility.swift:48-59 | a region's code with any of its letters in lower case (such as "uKiE") still parses to that region |
| GeographicRegions.KelvinSignInCode | ios/Classes/MapKitRegionUtility.swift:49-57 | "u" + KELVIN SIGN (U+212A) + "ie" parses to UK and Ireland, because Swift compares the upper-cased text up to canonical equivalence |
| GeographicRegions.RawNumbersAreDegrees | ios/Classes/MapKitRegionUtility.swift:25-33 | in every raw value, the corners have latitudes in [-90, 90] and longitudes in [-180, 180] |
| GeographicRegions.Coordinates | ios/Classes/MapKitRegionUtility.swift:62-68 | `min` is (latitude: fourth number, longitude: third number) and `max` is (second, first); `min` has the larger latitude in every region |
| BoundingBoxes.FromDisplayRegion | ios/Classes/MapKitRegionUtility.swift:17-21 | the box's `min` is (latitude: fourth number, longitude: third) and its `max` is (second, first), and `min` lies north of `max` |
| BoundingBoxes.RegionForFitsBoundingBox | ios/Classes/MapKitRegionUtility.swift:17-21 | the display region's map region is the one fitted to its bounding box's two corners |
| CoordinateRegion.Transform | ios/Classes/MapKitRegionUtility.swift:105-107 | keeps the latitude; changes a coordinate exactly when its longitude is negative, and then adds 360; maps longitudes in [-360, 360) into [0, 360) |
| CoordinateRegion.InverseTransform | ios/Classes/MapKitRegionUtility.swift:109-111 | keeps the latitude; changes a coordinate exactly when its longitude is above 180, and then subtracts 360; maps longitudes in (-180, 540] into (-180, 180] |
| CoordinateRegion.InverseTransformUndoesTransform | ios/Classes/MapKitRegionUtility.swift:105-111 | the inverse undoes the transform exactly on longitudes in (-180, 180] |
| CoordinateRegion.TransformUndoesInverseTransform | ios/Classes/MapKitRegionUtility.swift:105-111 | the transform undoes the inverse exactly on longitudes in [0, 360) |
| CoordinateRegion.RoundTripAtWestAntimeridian | ios/Classes/MapKitRegionUtility.swift:105-111 | the round trip sends longitude -180 to 180 and keeps the latitude |
| CoordinateRegion.Least | ios/Classes/MapKitRegionUtility.swift:129 | `min(by:)` gives nil only for an empty list; otherwise it gives an element of the list that no other element is below |
| CoordinateRegion.Greatest | ios/Classes/MapKitRegionUtility.swift:130 | `max(by:)` gives nil only for an empty list; otherwise it gives an element of the list that no other element is above |
| CoordinateRegion.Bounds | ios/Classes/MapKitRegionUtility.swift:129-133 | for a non-empty list, the low corner holds the least latitude and least longitude, and the high corner the greatest of each |
| CoordinateRegion.MapKitRegion | ios/Classes/MapKitRegionUtility.swift:113-148 | nil exactly for no coordinates. One coordinate gives a region centred on it with span (1, 1), untransformed. Two or more give the box of the transformed coordinates: the span is the extent of its corners, and the centre is their midpoint mapped by the inverse transform |
| CoordinateRegion.BoxRegionIsBox | ios/Classes/MapKitRegionUtility.swift:135-145 | "greatest minus half the span" is the midpoint of the box's corners, so the computed region is the transformed box |
| CoordinateRegion.SpansNonNegative | ios/Classes/MapKitRegionUtility.swift:135-138 | both spans of a computed region are at least 0, whatever the transforms |
| CoordinateRegion.FirstNarrowestIndex | ios/Classes/MapKitRegionUtility.swift:96 | `min(by:)` on longitude span settles on a region no other region is narrower than, and one strictly narrower than every region before it |
| CoordinateRegion.NarrowestByLongitude | ios/Classes/MapKitRegionUtility.swift:96 | nil only for no regions; otherwise a narrowest member of the list; for `[a, b]` it is `b` only when `b` is strictly narrower |
| CoordinateRegion.FromCoordinates | ios/Classes/MapKitRegionUtility.swift:81-103 | nil exactly for an empty list; one coordinate gives the span (1, 1) region; otherwise the result is the un-shifted or the shifted region, whichever has the smaller longitude span, and the un-shifted one on a tie |
| CoordinateRegion.FromCoordinatesLatitudeBand | ios/Classes/MapKitRegionUtility.swift:81-103 | for two or more coordinates, the chosen latitude span is the greatest latitude minus the least, and the centre latitude is their midpoint |
| CoordinateRegion.LatitudeBandOf | ios/Classes/MapKitRegionUtility.swift:127-147 | with latitude-keeping transforms, the computed latitude span and centre latitude come from the given latitudes alone |
| CoordinateRegion.FromCoordinatesCenterLongitude | ios/Classes/MapKitRegionUtility.swift:81-111 | when every longitude is in [-180, 180], so is the chosen centre longitude |
| CoordinateRegion.UnshiftedCenterLongitude | ios/Classes/MapKitRegionUtility.swift:140-145 | un-shifted, the centre of longitudes in [-180, 180] stays in [-180, 180] |
| CoordinateRegion.ShiftedCenterLongitude | ios/Classes/MapKitRegionUtility.swift:140-145 | shifted, the midpoint of the box's least and greatest longitude lies in [0, 360), and the centre, that midpoint mapped back, lies in [-180, 180] |
| CoordinateRegion.PairRegion | ios/Classes/MapKitRegionUtility.swift:127-147 | for two coordinates, the region is centred on the inverse-mapped midpoint of the two transformed coordinates, with their latitude and longitude distances as its span |
| CoordinateRegion.PairLatitudeBand | ios/Classes/MapKitRegionUtility.swift:81-103 | for two coordinates, the chosen latitude span is their latitude distance and the centre latitude is their midpoint |
| CoordinateRegion.PairLongitudeSpanAtMostHalfTurn | ios/Classes/MapKitRegionUtility.swift:94-97 | for two longitudes in [-180, 180], the chosen longitude span is at most their plain difference and at most 180 |
| CoordinateRegion.PairRegionBounds | ios/Classes/MapKitRegionUtility.swift:81-103 | the region of two proper coordinates exists, has their latitude band, has a longitude span at most their difference and at most 180, and has a centre longitude in [-180, 180] |
| CoordinateRegion.BoundsOfSameElements | ios/Classes/MapKitRegionUtility.swift:129-133 | the four extremes depend only on which coordinates occur, not on order or repetition |
| CoordinateRegion.MapKitRegionOfSameElements | ios/Classes/MapKitRegionUtility.swift:127-147 | two lists of at least two coordinates each that hold the same coordinates give the same region |
| CoordinateRegion.FromCoordinatesOfSameElements | ios/Classes/MapKitRegionUtility.swift:81-103 | the chosen region also depends only on which coordinates are given, once there are at least two |
| RegionUtility.RegionFor | ios/Classes/MapKitRegionUtility.swift:73-76 | never nil. The latitude span is the distance between the corners' latitudes, and the centre latitude is their midpoint. The longitude span is at most the un-shifted one and at most 180, and the centre longitude is in [-180, 180] |
| RegionUtility.AsiaRegion | ios/Classes/MapKitRegionUtility.swift:26 | Asia's corners straddle the 180th meridian: the shifted box wins, centred on (34.8771676, 108.30538335) with span (94.1780378, 165.4334733) |
| RegionUtility.AntarcticaRegion | ios/Classes/MapKitRegionUtility.swift:30 | Antarctica's region is centred on (-72.5799143399, 180) with span (24.9424288798, 0) |
| RegionUtility.NorthAmericaRegion | ios/Classes/MapKitRegionUtility.swift:28 | North America ties, so the un-shifted box is kept: centre (44.58083831305, -94.0869162), span (78.1694766261, 157.1484375) |

## Left out

- `MapKitBoundingBox.init(mapRect:)` (lines 9-15): it converts through `MKMapPoint.coordinate`, MapKit's Web-Mercator projection, which is not visible.
- GeographicRegions.Coordinates: the raw strings are not split with `components(separatedBy:)` and the fields are not parsed with `Double(_:)`. `RawNumbers` holds the four numbers of each raw value exactly, so `compactMap` is taken to drop nothing, which holds for all eight raw values.
- Strings.Uppercased: only the one-character mappings that give ASCII letters are modelled (a–z, U+0131 to I, U+017F to S). Mappings to several characters (ß to SS, ﬃ to FFI) and mappings to non-ASCII letters (é to É) are not modelled: the model keeps those characters as they are.
- Strings.CanonicallyEqual: the only canonical decomposition modelled is the Kelvin sign U+212A to K, the one character that decomposes to an ASCII letter. Other decompositions, combining-mark reordering and composed/decomposed pairs (é as one character or as e plus U+0301) are not modelled.
- GeographicRegions.FromRegionCode: upper-casing is modelled only for the characters whose upper-case form is one ASCII letter: a–z, dotless i (U+0131) and long s (U+017F). Canonical equivalence is modelled only for the one character that decomposes to an ASCII letter, the Kelvin sign (U+212A, equivalent to K). The other case mappings that give ASCII letters give several characters (ß to SS, ﬁ to FI, ẚ to A plus a modifier letter, and the like). None of these forms one of the eight codes, so for them the model returns nil, as the source does. Full Unicode case mapping and normalisation are not modelled.
- IEEE-754 `Double` arithmetic: degrees are exact `real`s, so rounding is not modelled, neither in the subtraction and the halving of `mapKitRegion` nor in the `360 +` of `transform`. That rounding can tip a tie in the choice at line 96. For North America the two spans are exactly equal in reals, so the model keeps the un-shifted region (`NorthAmericaRegion`). In binary64 the shifted span comes out about 3e-14 smaller, so the device would keep the shifted region, which agrees with the un-shifted one to within a few times 1e-14 degrees.
- CoordinateRegion.MapKitRegion: the `guard let … else { return nil }` at lines 129-133 cannot fail for two or more coordinates, so the model has no such branch.
- `android/src/main/kotlin/com/yourparkingspace/search_completion/SearchCompletionPlugin.kt`, `ios/Classes/SearchCompletionPlugin.swift` and `ios/Classes/MapKitSearchCompletionManager.swift` are not part of this model. They are channel plumbing, asynchronous vendor SDK calls and event forwarding, with no local logic to state.
