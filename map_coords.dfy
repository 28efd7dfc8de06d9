/**
 * The web-mercator conversions and the validated longitude/latitude pair
 * of the map module. The logarithm and the trigonometry inside the
 * latitude conversions are floating-point maths; they are parameters
 * here (RawY: the unclamped latitude-to-y formula, LatFromY: its
 * inverse), while the clamping and the validity checks are modelled.
 */
module MapCoords {
  import opened Wrappers
  import MS = MarchingSquares

  /** Smallest and largest mercator y that mercatorYfromLat returns. */
  const MIN_Y: real := -0.5
  const MAX_Y: real := 1.5

  /** `(180 + lng) / 360`: longitude in degrees to mercator x. */
  function MercatorXFromLng(lng: real): (x: real)
    ensures LngFromMercatorX(x) == lng
    ensures -180.0 <= lng <= 180.0 <==> 0.0 <= x <= 1.0
  {
    (180.0 + lng) / 360.0
  }

  /** `360 * x - 180`: mercator x to longitude in degrees. */
  function LngFromMercatorX(x: real): (lng: real)
    ensures 0.0 <= x <= 1.0 <==> -180.0 <= lng <= 180.0
  {
    360.0 * x - 180.0
  }

  /** The other round trip: x to longitude and back is the identity. */
  lemma MercatorXRoundTrip(x: real)
    ensures MercatorXFromLng(LngFromMercatorX(x)) == x
  {
  }

  /** `min(1.5, max(-0.5, y))` */
  function ClampY(y: real): (r: real)
    ensures MIN_Y <= r <= MAX_Y
    ensures MIN_Y <= y <= MAX_Y ==> r == y
    ensures y < MIN_Y ==> r == MIN_Y
    ensures y > MAX_Y ==> r == MAX_Y
  {
    if y > MAX_Y then MAX_Y else if y < MIN_Y then MIN_Y else y
  }

  /** mercatorYfromLat: the projection formula RawY, clamped into [-0.5, 1.5]. */
  function MercatorYFromLat(rawY: real -> real, lat: real): (y: real)
    ensures MIN_Y <= y <= MAX_Y
    ensures MIN_Y <= rawY(lat) <= MAX_Y ==> y == rawY(lat)
  {
    ClampY(rawY(lat))
  }

  /** Clamping never reverses the order of two latitudes' raw y values. */
  lemma ClampMonotone(y1: real, y2: real)
    requires y1 <= y2
    ensures ClampY(y1) <= ClampY(y2)
  {
  }

  /** A validated coordinate pair; the constructor checks that both values are numbers and the latitude is in range. */
  datatype LngLat = LngLat(lng: real, lat: real)

  ghost predicate ValidLngLat(ll: LngLat)
  {
    -90.0 <= ll.lat <= 90.0
  }

  const INVALID_LNGLAT: string := "Invalid LngLat object"
  const INVALID_LATITUDE: string := "Invalid LngLat latitude value: must be between -90 and 90"

  /** `new LngLat(lng, lat)`: NaN in either value is rejected first, then a latitude outside [-90, 90]. */
  function NewLngLat(lng: MS.Sample, lat: MS.Sample): (r: Result<LngLat>)
    ensures r.Ok? <==> lng.Num? && lat.Num? && -90.0 <= lat.v <= 90.0
    ensures r.Ok? ==> r.value == LngLat(lng.v, lat.v) && ValidLngLat(r.value)
    ensures (lng.NaN? || lat.NaN?) ==> r == Err(INVALID_LNGLAT)
    ensures lng.Num? && lat.Num? && !(-90.0 <= lat.v <= 90.0) ==> r == Err(INVALID_LATITUDE)
  {
    if lng.NaN? || lat.NaN? then Err(INVALID_LNGLAT)
    else if lat.v > 90.0 || lat.v < -90.0 then Err(INVALID_LATITUDE)
    else Ok(LngLat(lng.v, lat.v))
  }

  datatype MercatorCoord = MercatorCoord(x: real, y: real)

  /** `toMercatorCoord`: x from the longitude, y from the clamped latitude formula. */
  function ToMercatorCoord(rawY: real -> real, ll: LngLat): (c: MercatorCoord)
    ensures LngFromMercatorX(c.x) == ll.lng
    ensures MIN_Y <= c.y <= MAX_Y
    ensures MIN_Y <= rawY(ll.lat) <= MAX_Y ==> c.y == rawY(ll.lat)
  {
    MercatorCoord(MercatorXFromLng(ll.lng), MercatorYFromLat(rawY, ll.lat))
  }

  /** `fromMercatorCoord`: both inverse conversions, then the constructor's checks. */
  function FromMercatorCoord(latFromY: real -> real, x: real, y: real): (r: Result<LngLat>)
    ensures r.Ok? <==> -90.0 <= latFromY(y) <= 90.0
    ensures r.Ok? ==> MercatorXFromLng(r.value.lng) == x && r.value.lat == latFromY(y)
    ensures r.Err? ==> r.error == INVALID_LATITUDE
  {
    NewLngLat(MS.Num(LngFromMercatorX(x)), MS.Num(latFromY(y)))
  }

  /**
   * Where the latitude formulas are inverse to each other, a mercator
   * coordinate in the clamping range survives the trip to a coordinate
   * pair and back.
   */
  lemma MercatorRoundTrip(rawY: real -> real, latFromY: real -> real, x: real, y: real)
    requires MIN_Y <= y <= MAX_Y
    requires -90.0 <= latFromY(y) <= 90.0 && rawY(latFromY(y)) == y
    ensures FromMercatorCoord(latFromY, x, y).Ok?
    ensures ToMercatorCoord(rawY, FromMercatorCoord(latFromY, x, y).value) == MercatorCoord(x, y)
  {
    MercatorXRoundTrip(x);
  }

  /** And a valid pair whose raw y is inside the clamping range survives the trip to mercator and back. */
  lemma LngLatRoundTrip(rawY: real -> real, latFromY: real -> real, ll: LngLat)
    requires ValidLngLat(ll)
    requires MIN_Y <= rawY(ll.lat) <= MAX_Y && latFromY(rawY(ll.lat)) == ll.lat
    ensures FromMercatorCoord(latFromY, ToMercatorCoord(rawY, ll).x, ToMercatorCoord(rawY, ll).y) == Ok(ll)
  {
  }
}
