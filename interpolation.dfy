/** Linear interpolation of the chart point between two bracketing curves,
    in the form the calculator computes it: a ratio of the distances to the
    lower and upper curve, then a weighted mean of the two curve readings. */
module Interpolation {

  /** The value of the floating-point computation: a height on the chart's
      density-altitude scale, the scale of every curve value, or NaN once the
      ratio's denominator is zero (inf / inf, or NaN / inf when y2 is 0). */
  datatype Reading = Point(height: real) | NotANumber

  /** dist_bot / dist_top: how far the density altitude lies above the lower
      curve, measured in units of its distance below the upper curve. */
  function Ratio(lower: real, upper: real, da: real): real
    requires da != upper
  {
    (da - lower) / (upper - da)
  }

  /** With b = da - lower and d = upper - da, the source's
      (ratio * y2 + y1) / (1 + ratio) is the weighted mean (b * y2 + d * y1) / (b + d). */
  lemma WeightedMean(b: real, d: real, y1: real, y2: real)
    requires d != 0.0 && b + d != 0.0
    ensures 1.0 + b / d != 0.0
    ensures ((b / d) * y2 + y1) / (1.0 + b / d) == (b * y2 + d * y1) / (b + d)
  {
    var t := b / d;
    assert t * d == b;
    assert (1.0 + t) * d == b + d;
    assert (t * y2 + y1) * d == b * y2 + d * y1;
    var n := t * y2 + y1;
    var m := 1.0 + t;
    assert m != 0.0;
    assert n / m == (n * d) / (m * d);
  }

  /** The interpolated point at density altitude da, given the readings y1 of the lower
      curve (labelled lower) and y2 of the upper curve (labelled upper). */
  function Interpolate(lower: real, upper: real, da: real, y1: real, y2: real): (r: Reading)
    requires lower < upper
    ensures r.NotANumber? <==> da == upper
    ensures r.Point? ==> r.height == ((da - lower) * y2 + (upper - da) * y1) / (upper - lower)
  {
    if da == upper then NotANumber
    else
      var ratio := Ratio(lower, upper, da);
      WeightedMean(da - lower, upper - da, y1, y2);
      Point((ratio * y2 + y1) / (1.0 + ratio))
  }

  /** The reading at the lower curve's own density altitude is that curve's. */
  lemma AtLowerCurve(lower: real, upper: real, y1: real, y2: real)
    requires lower < upper
    ensures Interpolate(lower, upper, lower, y1, y2) == Point(y1)
  {
  }

  /** A straight line through (lower, y1) and (upper, y2). */
  lemma OnTheLine(lower: real, upper: real, da: real, y1: real, y2: real)
    requires lower < upper && da != upper
    ensures Interpolate(lower, upper, da, y1, y2).height
         == y1 + (da - lower) / (upper - lower) * (y2 - y1)
  {
    var w := (da - lower) / (upper - lower);
    assert w * (upper - lower) == da - lower;
    assert (y1 + w * (y2 - y1)) * (upper - lower) == (da - lower) * y2 + (upper - da) * y1;
  }

  /** The distance to the upper reading shrinks in proportion to the distance
      to the upper curve, so the reading tends to y2 as da tends to upper. */
  lemma TowardUpperCurve(lower: real, upper: real, da: real, y1: real, y2: real)
    requires lower < upper && da != upper
    ensures Interpolate(lower, upper, da, y1, y2).height - y2
         == (upper - da) / (upper - lower) * (y1 - y2)
  {
    var w := (upper - da) / (upper - lower);
    assert w * (upper - lower) == upper - da;
    assert (y2 + w * (y1 - y2)) * (upper - lower) == (da - lower) * y2 + (upper - da) * y1;
  }

  /** A fraction a / b with 0 <= a < b lies in [0, 1). */
  lemma UnitFraction(a: real, b: real)
    requires 0.0 <= a < b
    ensures 0.0 <= a / b < 1.0
  {
    var q := a / b;
    assert q * b == a;
  }

  /** Scaling by a weight in [0, 1] stays within [0, x]. */
  lemma ScaledWithin(w: real, x: real)
    requires 0.0 <= w <= 1.0 && 0.0 <= x
    ensures 0.0 <= w * x <= x
  {
    assert (1.0 - w) * x >= 0.0;
  }

  /** Dividing by a positive number keeps the order. */
  lemma DivideKeepsOrder(a: real, a': real, b: real)
    requires a < a' && 0.0 < b
    ensures a / b < a' / b
  {
    assert (a' / b - a / b) * b == a' - a;
  }

  /** Between the two curves the reading lies between the two readings. */
  lemma BetweenReadings(lower: real, upper: real, da: real, y1: real, y2: real)
    requires lower <= da < upper
    ensures var r := Interpolate(lower, upper, da, y1, y2).height;
      (y1 <= y2 ==> y1 <= r <= y2) && (y2 <= y1 ==> y2 <= r <= y1)
  {
    OnTheLine(lower, upper, da, y1, y2);
    var r := Interpolate(lower, upper, da, y1, y2).height;
    var w := (da - lower) / (upper - lower);
    assert r == y1 + w * (y2 - y1);
    UnitFraction(da - lower, upper - lower);
    if y1 <= y2 {
      ScaledWithin(w, y2 - y1);
    } else {
      ScaledWithin(w, y1 - y2);
      assert w * (y1 - y2) == -(w * (y2 - y1));
    }
  }

  /** Two equal readings interpolate to themselves. */
  lemma EqualReadings(lower: real, upper: real, da: real, y: real)
    requires lower < upper && da != upper
    ensures Interpolate(lower, upper, da, y, y) == Point(y)
  {
    OnTheLine(lower, upper, da, y, y);
  }

  /** If the upper curve reads higher, a higher density altitude gives a
      higher point. */
  lemma MonotoneInDensityAltitude(lower: real, upper: real, da: real, da': real, y1: real, y2: real)
    requires lower < upper && da < da' && da != upper && da' != upper
    requires y1 < y2
    ensures Interpolate(lower, upper, da, y1, y2).height < Interpolate(lower, upper, da', y1, y2).height
  {
    OnTheLine(lower, upper, da, y1, y2);
    OnTheLine(lower, upper, da', y1, y2);
    var w := (da - lower) / (upper - lower);
    var w' := (da' - lower) / (upper - lower);
    DivideKeepsOrder(da - lower, da' - lower, upper - lower);
    assert (w' - w) * (y2 - y1) > 0.0;
  }
}
