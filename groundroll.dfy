/** The numeric pipeline of the ground-roll calculator: density altitude,
    bracketing curves, the two curve readings at the requested weight, and
    the interpolated chart point. The readings come from a quadratic fit of
    each curve over the weights; that fit is a parameter here. */
module GroundRoll {
  import opened Atmosphere
  import opened PerformanceTable
  import opened BracketSearch
  import opened Interpolation

  /** The pilot's inputs: weight (lb), outside air temperature (C), field
      elevation (ft) and altimeter setting (inHg). */
  datatype Query = Query(weight: real, oatC: real, elevation: real, altimeter: real)

  /** What the calculator derives for one query. */
  datatype Estimate = Estimate(densityAltitude: real, lowerCurve: nat, point: Reading)

  /** A curve reading: fit(c, w) is the fitted polynomial of curve c evaluated at weight w. */
  type CurveFit = (nat, real) -> real

  /** Reference definition of the pipeline. */
  function Evaluate(q: Query, fit: CurveFit): (e: Estimate)
    ensures e.lowerCurve <= LastPair
    ensures e.densityAltitude == DensityAltitude(q.oatC, q.elevation, q.altimeter)
  {
    var da := DensityAltitude(q.oatC, q.elevation, q.altimeter);
    var i := Bracket(da);
    BaselinesIncrease();
    Estimate(da, i, Interpolate(Baseline(i) as real, Baseline(i + 1) as real, da,
                                fit(i, q.weight), fit(i + 1, q.weight)))
  }

  /** The calculation in the order the calculator performs it. */
  method ComputeGroundRoll(q: Query, fit: CurveFit) returns (e: Estimate)
    ensures e == Evaluate(q, fit)
    ensures e.lowerCurve + 1 < |Curves|
    ensures e.point.NotANumber? <==> e.densityAltitude == Baseline(LastPair + 1) as real
  {
    var da := DensityAltitude(q.oatC, q.elevation, q.altimeter);
    var i := FindBracket(da);
    var y1 := fit(i, q.weight);
    var y2 := fit(i + 1, q.weight);
    var distTop := Curves[i + 1][0] as real - da;
    var distBot := da - Curves[i][0] as real;
    BaselinesIncrease();
    var point: Reading;
    if distTop == 0.0 {
      point := NotANumber;
    } else {
      var ratio := distBot / distTop;
      WeightedMean(distBot, distTop, y1, y2);
      point := Point((ratio * y2 + y1) / (1.0 + ratio));
    }
    e := Estimate(da, i, point);
    NotANumberOnlyAtTop(q, fit);
  }

  /** The division by zero is reached for exactly one density altitude, the
      last baseline (9406 ft): anywhere else the ratio's denominator is not zero. */
  lemma NotANumberOnlyAtTop(q: Query, fit: CurveFit)
    ensures var e := Evaluate(q, fit);
      e.point.NotANumber? <==> e.densityAltitude == Baseline(LastPair + 1) as real
  {
    var da := DensityAltitude(q.oatC, q.elevation, q.altimeter);
    if da == Baseline(LastPair + 1) as real {
      OutsideTableFallsThrough(da);
    }
  }

  /** Inside the table and off the baselines, the point is the reading
      interpolated between the two bracketing curves, and lies between them. */
  lemma InsideTableInterpolates(q: Query, fit: CurveFit)
    requires var da := DensityAltitude(q.oatC, q.elevation, q.altimeter);
      && Baseline(0) as real < da < Baseline(LastPair + 1) as real
      && forall c :: 0 <= c <= LastPair + 1 ==> da != Baseline(c) as real
    ensures var e := Evaluate(q, fit);
      var y1 := fit(e.lowerCurve, q.weight);
      var y2 := fit(e.lowerCurve + 1, q.weight);
      && Brackets(e.lowerCurve, e.densityAltitude)
      && e.point.Point?
      && (y1 <= y2 ==> y1 <= e.point.height <= y2)
      && (y2 <= y1 ==> y2 <= e.point.height <= y1)
  {
    var da := DensityAltitude(q.oatC, q.elevation, q.altimeter);
    var i := Bracket(da);
    InsideTable(da);
    BetweenReadings(Baseline(i) as real, Baseline(i + 1) as real, da, fit(i, q.weight), fit(i + 1, q.weight));
  }

  /** When the search falls through (out of range, or exactly on a lower
      baseline) for a density altitude outside the Seven-Eight segment, the
      result is a linear extrapolation from curves Seven and Eight: its
      weight on curve Eight lies outside [0, 1]. */
  lemma FallThroughExtrapolates(q: Query, fit: CurveFit)
    requires var da := DensityAltitude(q.oatC, q.elevation, q.altimeter);
      && Bracket(da) == LastPair
      && (da < Baseline(LastPair) as real || da > Baseline(LastPair + 1) as real)
    ensures var e := Evaluate(q, fit);
      var lower := Baseline(LastPair) as real;
      var upper := Baseline(LastPair + 1) as real;
      var w := (e.densityAltitude - lower) / (upper - lower);
      var y1 := fit(LastPair, q.weight);
      var y2 := fit(LastPair + 1, q.weight);
      && (w < 0.0 || w > 1.0)
      && e.point == Point(y1 + w * (y2 - y1))
  {
    var da := DensityAltitude(q.oatC, q.elevation, q.altimeter);
    var lower := Baseline(LastPair) as real;
    var upper := Baseline(LastPair + 1) as real;
    BaselinesIncrease();
    OnTheLine(lower, upper, da, fit(LastPair, q.weight), fit(LastPair + 1, q.weight));
    if da < lower {
      DivideKeepsOrder(da - lower, 0.0, upper - lower);
    } else {
      DivideKeepsOrder(upper - lower, da - lower, upper - lower);
    }
  }

  /** A density altitude of exactly 1402 ft, the baseline of curve Two, is
      read off curves Seven and Eight instead of curve Two. */
  lemma BaselineOfCurveTwo(q: Query, fit: CurveFit)
    requires DensityAltitude(q.oatC, q.elevation, q.altimeter) == 1402.0
    ensures var e := Evaluate(q, fit);
      && e.lowerCurve == LastPair
      && e.point == Point((-6670.0 * fit(LastPair + 1, q.weight) + 8004.0 * fit(LastPair, q.weight)) / 1334.0)
  {
    BaselineValues();
    OnBaselineFallsThrough(1402.0, 1);
  }

  /** The calculator's default query: 2325 lb, 15 C, 1000 ft, 29.92 inHg gives
      density altitude 1240 ft, between curves One and Two. */
  lemma DefaultQuery(fit: CurveFit)
    ensures var e := Evaluate(Query(2325.0, 15.0, 1000.0, 29.92), fit);
      && e.densityAltitude == 1240.0
      && e.lowerCurve == 0
      && e.point == Point((1308.0 * fit(1, 2325.0) + 162.0 * fit(0, 2325.0)) / 1470.0)
  {
    DefaultInputs();
    BaselineValues();
  }
}
