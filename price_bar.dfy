/**
 * The result card's comparison bar: a price range from 70 % to 150 % of the
 * local price, a green band around the local price and a marker at the
 * detected price, both placed as percentages of the bar's width.
 *
 * The positions are JavaScript numbers, so a zero-width range divides by
 * zero; `JsNumber` keeps the two infinities and NaN that such a division
 * produces, and `Math.max`/`Math.min` are modelled on them as JavaScript
 * defines them (NaN wins over everything, an infinity loses to any finite
 * bound on the far side).
 */
module PriceBar {
  import opened ScanTypes

  datatype JsNumber = Finite(value: real) | PosInfinity | NegInfinity | NaN

  /** `a / b` in JavaScript. */
  function Divide(a: real, b: real): (r: JsNumber)
    ensures r.NaN? <==> a == 0.0 && b == 0.0
    ensures b != 0.0 ==> r == Finite(a / b)
    ensures b == 0.0 && a > 0.0 ==> r == PosInfinity
    ensures b == 0.0 && a < 0.0 ==> r == NegInfinity
  {
    if b != 0.0 then Finite(a / b)
    else if a > 0.0 then PosInfinity
    else if a < 0.0 then NegInfinity
    else NaN
  }

  /** `x * k` for a positive constant `k`. */
  function Scale(x: JsNumber, k: real): JsNumber
    requires k > 0.0
  {
    match x
    case Finite(v) => Finite(v * k)
    case _ => x
  }

  /** `x - k`. */
  function Shift(x: JsNumber, k: real): JsNumber
  {
    match x
    case Finite(v) => Finite(v - k)
    case _ => x
  }

  /** `Math.max(x, bound)`. */
  function JsMax(x: JsNumber, bound: real): JsNumber
  {
    match x
    case Finite(v) => Finite(if v >= bound then v else bound)
    case PosInfinity => PosInfinity
    case NegInfinity => Finite(bound)
    case NaN => NaN
  }

  /** `Math.min(x, bound)`. */
  function JsMin(x: JsNumber, bound: real): JsNumber
  {
    match x
    case Finite(v) => Finite(if v <= bound then v else bound)
    case PosInfinity => Finite(bound)
    case NegInfinity => NegInfinity
    case NaN => NaN
  }

  /** `minPrice`: 70 % of the local price, rounded. */
  function MinPrice(local: int): int
  {
    RoundHalfUp(local as real * 0.7)
  }

  /** `maxPrice`: 150 % of the local price, rounded. */
  function MaxPrice(local: int): int
  {
    RoundHalfUp(local as real * 1.5)
  }

  function Range(local: int): int
  {
    MaxPrice(local) - MinPrice(local)
  }

  /** The range shown above the bar is never reversed for a non-negative local price. */
  lemma {:induction false} RangeBoundsOrdered(local: int)
    requires local >= 0
    ensures MinPrice(local) <= MaxPrice(local)
  {
    assert local as real * 0.7 <= local as real * 1.5;
  }

  /** The bar has a positive width exactly when the local price is positive. */
  lemma {:induction false} RangePositiveIff(local: int)
    ensures Range(local) > 0 <==> local > 0
  {
    var x := local as real;
    if local == 1 {
      assert MinPrice(1) == 1 by { assert (0.7 + 0.5).Floor == 1; }
      assert MaxPrice(1) == 2 by { assert (1.5 + 0.5).Floor == 2; }
    } else if local > 1 {
      assert MinPrice(local) as real <= x * 0.7 + 0.5;
      assert MaxPrice(local) as real > x * 1.5 - 0.5;
      assert x * 0.8 - 1.0 >= 0.6;
    } else {
      assert x * 1.5 <= x * 0.7;
      assert RoundHalfUp(x * 1.5) <= RoundHalfUp(x * 0.7);
    }
  }

  /** `localPosition`: where the local price sits on the bar, in percent. */
  function LocalPosition(local: int): JsNumber
  {
    Scale(Divide((local - MinPrice(local)) as real, Range(local) as real), 100.0)
  }

  /** `userPosition`: where the detected price sits on the bar, in percent. */
  function UserPosition(local: int, detected: int): JsNumber
  {
    Scale(Divide((detected - MinPrice(local)) as real, Range(local) as real), 100.0)
  }

  /** The green band's left offset: `Math.max(localPosition - 8, 2)`. */
  function BandLeft(local: int): JsNumber
  {
    JsMax(Shift(LocalPosition(local), 8.0), 2.0)
  }

  /** The marker's left offset: `Math.min(Math.max(userPosition, 1), 99)`. */
  function MarkerLeft(local: int, detected: int): JsNumber
  {
    JsMin(JsMax(UserPosition(local, detected), 1.0), 99.0)
  }

  /**
   * The marker is clamped into [1, 99] whatever the prices, infinities
   * included; the single escape is NaN, which happens exactly when the range
   * is empty and the detected price equals the rounded minimum.
   */
  lemma {:induction false} MarkerClamped(local: int, detected: int)
    ensures MarkerLeft(local, detected).NaN? <==>
      Range(local) == 0 && detected == MinPrice(local)
    ensures !MarkerLeft(local, detected).NaN? ==>
      MarkerLeft(local, detected).Finite? &&
      1.0 <= MarkerLeft(local, detected).value <= 99.0
  {
    var q := Divide((detected - MinPrice(local)) as real, Range(local) as real);
    assert q.NaN? <==> Range(local) == 0 && detected == MinPrice(local);
    assert UserPosition(local, detected) == Scale(q, 100.0);
  }

  /**
   * The band starts at 2 % or further right whenever the local price is
   * positive. With a zero local price the range is empty and the offset is
   * NaN; in no case is it a finite value below 2.
   */
  lemma {:induction false} BandLeftBounded(local: int)
    ensures local > 0 ==> BandLeft(local).Finite?
    ensures BandLeft(local).Finite? ==> BandLeft(local).value >= 2.0
    ensures local == 0 ==> BandLeft(local) == NaN
  {
    RangePositiveIff(local);
    if local == 0 {
      assert MinPrice(0) == 0 && MaxPrice(0) == 0;
    }
  }
}
