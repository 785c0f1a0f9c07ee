/**
 * Values shared by the scanner pages, the camera view and the result card:
 * the scan result record, coordinates, the location status, the page views,
 * and the JavaScript `Math.round` used by every price computation.
 */
module ScanTypes {

  datatype Option<T> = None | Some(value: T)

  /** A latitude/longitude pair; the model treats it as an opaque value. */
  datatype Coordinate = Coordinate(lat: real, lng: real)

  /** The coordinate used whenever the device cannot report one. */
  const FallbackLocation: Coordinate := Coordinate(26.9124, 75.7873)

  datatype LocationStatus = Loading | Granted | Denied

  /** What the browser's geolocation service reports, once. */
  datatype GeoOutcome = Unsupported | Position(coord: Coordinate) | PositionError

  /**
   * The geolocation effect's outcome: the device position with `granted`,
   * or the fallback with `denied` when the API is missing or reports an
   * error. Either way a coordinate is present afterwards.
   */
  function Geolocate(outcome: GeoOutcome): (r: (Coordinate, LocationStatus))
    ensures r.1 != Loading
    ensures r.1 == Granted <==> outcome.Position?
    ensures outcome.Position? ==> r.0 == outcome.coord
    ensures !outcome.Position? ==> r.0 == FallbackLocation && r.1 == Denied
  {
    match outcome
    case Position(c) => (c, Granted)
    case _ => (FallbackLocation, Denied)
  }

  /** The three views of the scanner page. */
  datatype View = GlobeView | CameraView | ResultView

  /** The record handed from the camera to the result card. Prices are whole numbers. */
  datatype ScanItem = ScanItem(
    name: string,
    emoji: string,
    detectedPrice: int,
    localPrice: int,
    currency: string,
    localRange: string,
    overpricePercentage: int,
    insight: string,
    region: string)

  /** `Math.round`: the nearest integer, halves rounded towards positive infinity. */
  function RoundHalfUp(x: real): (r: int)
    ensures r as real - 0.5 <= x < r as real + 0.5
  {
    (x + 0.5).Floor
  }

  /** Exact percentage by which `detected` exceeds `local`, for a positive `local`. */
  function OverpriceRatio(detected: int, local: int): real
    requires local > 0
  {
    (detected - local) as real * 100.0 / local as real
  }

  /**
   * A result is consistent when its stored percentage is the rounded relative
   * excess of the detected price over the local price.
   */
  predicate PercentConsistent(item: ScanItem)
  {
    item.localPrice > 0 &&
    item.overpricePercentage == RoundHalfUp(OverpriceRatio(item.detectedPrice, item.localPrice))
  }

  /**
   * Rounding a quotient of integers needs no real arithmetic: `Math.round(n / m)`
   * is the integer quotient of 2n + m by 2m, for a positive `m`.
   */
  lemma {:induction false} RoundQuotient(n: int, m: int)
    requires m > 0
    ensures RoundHalfUp(n as real / m as real) == (2 * n + m) / (2 * m)
  {
    var q, rem := (2 * n + m) / (2 * m), (2 * n + m) % (2 * m);
    assert 2 * n + m == 2 * m * q + rem && 0 <= rem < 2 * m;
    var y := n as real / m as real + 0.5;
    assert y == (2 * n + m) as real / (2 * m) as real;
    assert (2 * n + m) as real == (2 * m) as real * q as real + rem as real;
    assert y == q as real + rem as real / (2 * m) as real;
    FractionBelowOne(rem, 2 * m);
    assert q as real <= y < q as real + 1.0;
  }

  lemma FractionBelowOne(a: int, b: int)
    requires 0 <= a < b
    ensures 0.0 <= a as real / b as real < 1.0
  {
    assert a as real < b as real;
    assert a as real / b as real * b as real == a as real;
  }

  /** The stored percentage of a result, checked with integer arithmetic only. */
  lemma {:induction false} PercentConsistentInIntegers(item: ScanItem)
    requires item.localPrice > 0
    ensures PercentConsistent(item) <==>
      var d, l := item.detectedPrice, item.localPrice;
      item.overpricePercentage == (200 * (d - l) + l) / (2 * l)
  {
    var d, l := item.detectedPrice, item.localPrice;
    assert OverpriceRatio(d, l) == (100 * (d - l)) as real / l as real;
    RoundQuotient(100 * (d - l), l);
  }
}
