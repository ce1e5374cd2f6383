/** The numeric helpers of the utility library (src/lib/utils.ts), over exact reals. */
module Numeric {

  /** `Math.PI`, written out to the precision JavaScript prints it. */
  const PI: real := 3.141592653589793

  /** Linear interpolation: `start + (end - start) * factor`. */
  function Lerp(start: real, end: real, factor: real): (r: real)
    ensures factor == 0.0 ==> r == start
    ensures factor == 1.0 ==> r == end
    ensures 0.0 <= factor <= 1.0 && start <= end ==> start <= r <= end
    ensures 0.0 <= factor <= 1.0 && end <= start ==> end <= r <= start
  {
    LerpBetween(start, end, factor);
    start + (end - start) * factor
  }

  lemma LerpBetween(start: real, end: real, factor: real)
    ensures 0.0 <= factor <= 1.0 && start <= end ==> 0.0 <= (end - start) * factor <= end - start
    ensures 0.0 <= factor <= 1.0 && end <= start ==> end - start <= (end - start) * factor <= 0.0
  {
    if 0.0 <= factor <= 1.0 {
      var d, g := end - start, 1.0 - factor;
      assert d - d * factor == d * g;
      if d >= 0.0 {
        NonNegativeProduct(d, factor);
        NonNegativeProduct(d, g);
      } else {
        NonNegativeProduct(-d, factor);
        NonNegativeProduct(-d, g);
      }
    }
  }

  lemma NonNegativeProduct(a: real, b: real)
    requires 0.0 <= a && 0.0 <= b
    ensures 0.0 <= a * b
  {
  }

  function Max(a: real, b: real): real { if a >= b then a else b }
  function Min(a: real, b: real): real { if a <= b then a else b }

  /** `Math.min(Math.max(value, min), max)`: the upper bound wins when the bounds cross. */
  function Clamp(value: real, min: real, max: real): (r: real)
    ensures min <= max ==> min <= r <= max
    ensures min <= value <= max ==> r == value
    ensures min > max ==> r == max
    ensures min <= max && value < min ==> r == min
    ensures min <= max && value > max ==> r == max
  {
    Min(Max(value, min), max)
  }

  /** Clamping is idempotent, whether or not the bounds are ordered. */
  lemma ClampIdempotent(value: real, min: real, max: real)
    ensures Clamp(Clamp(value, min, max), min, max) == Clamp(value, min, max)
  {
  }

  /** Maps `value` from [inMin, inMax] onto [outMin, outMax] by the affine map through both ends. */
  function MapRange(value: real, inMin: real, inMax: real, outMin: real, outMax: real): (r: real)
    requires inMin != inMax
    ensures value == inMin ==> r == outMin
    ensures value == inMax ==> r == outMax
  {
    var d := inMax - inMin;
    var w := outMax - outMin;
    CancelDivisor(d, w);
    ((value - inMin) * w) / d + outMin
  }

  /** Dividing a multiple of `d` by `d` gives back the other factor. */
  lemma CancelDivisor(d: real, w: real)
    requires d != 0.0
    ensures (d * w) / d == w
  {
  }

  /** Range mapping is interpolation of the output range by the input's relative position. */
  lemma MapRangeIsLerp(value: real, inMin: real, inMax: real, outMin: real, outMax: real)
    requires inMin != inMax
    ensures MapRange(value, inMin, inMax, outMin, outMax)
         == Lerp(outMin, outMax, (value - inMin) / (inMax - inMin))
  {
    var d := inMax - inMin;
    var u := value - inMin;
    var w := outMax - outMin;
    assert (u * w) / d == w * (u / d);
  }

  /** Mapping back from the output range undoes the mapping, when both ranges are proper. */
  lemma MapRangeRoundTrip(value: real, inMin: real, inMax: real, outMin: real, outMax: real)
    requires inMin != inMax && outMin != outMax
    ensures MapRange(MapRange(value, inMin, inMax, outMin, outMax), outMin, outMax, inMin, inMax) == value
  {
    var d := inMax - inMin;
    var w := outMax - outMin;
    var u := value - inMin;
    var m := MapRange(value, inMin, inMax, outMin, outMax);
    assert m - outMin == (u * w) / d;
    assert ((u * w) / d) * d == u * w;
    assert (u * w) / w == u;
    assert MapRange(m, outMin, outMax, inMin, inMax) == ((m - outMin) * d) / w + inMin;
  }

  /** Degrees to radians: `degrees * (PI / 180)`. */
  function DegToRad(degrees: real): (r: real)
    ensures r * 180.0 == degrees * PI
    ensures degrees == 180.0 ==> r == PI
  {
    degrees * (PI / 180.0)
  }

  /** Radians to degrees: `radians * (180 / PI)`. */
  function RadToDeg(radians: real): (r: real)
    ensures r * PI == radians * 180.0
    ensures radians == PI ==> r == 180.0
  {
    radians * (180.0 / PI)
  }

  lemma DegreesRoundTrip(degrees: real)
    ensures RadToDeg(DegToRad(degrees)) == degrees
  {
  }

  lemma RadiansRoundTrip(radians: real)
    ensures DegToRad(RadToDeg(radians)) == radians
  {
  }
}
