# PA-28-161 ground-roll calculator: a Dafny model of its numeric core

The calculator (`PA28Plot` in `PA28Performance.py`) takes a takeoff weight,
outside air temperature, field elevation and altimeter setting, and reads the
ground roll of a Piper Warrior II off a chart of eight reference curves. This
project models its numeric pipeline and proves properties of it:

1. **Density altitude** (module `Atmosphere`, `atmosphere.dfy`): pressure
   altitude `(29.92 - altimeter) * 1000 + elevation`, standard temperature
   `elevation * (-2/1000) + 15`, density altitude
   `(OAT - standard temperature) * 120 + pressure altitude`.
2. **The reference table** (module `PerformanceTable`, `table.dfy`): the
   sixteen weights and the eight curves `One` to `Eight` as constant
   sequences, with lemmas about their shape and ordering. A curve's
   *baseline* is its value at the heaviest weight (row 0).
3. **The bracket search** (module `BracketSearch`, `bracket.dfy`): the loop
   over the seven adjacent pairs that stops at the first pair whose baselines
   strictly bracket the density altitude. When no pair does, the loop runs
   out and the index stays on the last pair, curves Seven and Eight. The
   model keeps this fall-through. `FindBracket` is the loop with its `break`.
   `BracketFrom`/`Bracket` is the reference definition it is proved against.
4. **Interpolation** (module `Interpolation`, `interpolation.dfy`):
   `ratio = (DA - lower) / (upper - DA)` and
   `((ratio * y2) + y1) / (1 + ratio)`. This is proved equal to the weighted
   mean `((DA - lower) * y2 + (upper - DA) * y1) / (upper - lower)`.
5. **The whole pipeline** (module `GroundRoll`, `groundroll.dfy`): the
   reference function `Evaluate` and the method `ComputeGroundRoll`, which
   follows the calculator's statement order.

The interpolated point, like every curve value, is a height on the chart's
density-altitude axis (ft), not a ground-roll distance: the curves dip below
zero, down to -3910. The ground roll is read at that height off the chart's
overlaid right-hand axis; that conversion belongs to the figure and is left
out (see below).

Modelling choices:

- All arithmetic is over `real`. The source uses IEEE doubles.
- The two curve readings `y1` and `y2` come from a least-squares quadratic
  fit of a curve over the weights, evaluated at the requested weight. Here
  they come from a parameter `fit: (nat, real) -> real`, read as "curve
  index, weight to reading". Every property holds for every such function.
- Numpy's float division by zero does not raise. Once `dist_top` is zero,
  the ratio is infinite and the point is NaN (`inf / inf`, or `NaN / inf` when `y2` is 0). The
  model returns `Reading.NotANumber` in that case. It adds no precondition,
  because the code does not check for it. `NotANumberOnlyAtTop` proves this
  happens for exactly one density altitude, 9406 ft, the baseline of curve
  Eight: a pair found by the search always has `DA < upper`, so only the
  fall-through pair can meet its upper baseline.

Two edge cases of the code, kept as they are:

- Strictly between -68 and 9406 ft, a density altitude has a bracketing pair
  only when it is on no inner baseline. Exactly on one, such as 1402 ft, the
  scan falls through to curves Seven and Eight (`OnBaselineFallsThrough`,
  `BaselineOfCurveTwo`).
- At 9406 ft `dist_top` is zero and the reading is NaN, not curve Eight's
  reading (`NotANumberOnlyAtTop`).

The density-altitude formula of PA28Performance.py:39-41 is the definition
of `Atmosphere.DensityAltitude` itself; the lemmas below pin it down by its
standard-day values and its sensitivity to each input.

## Model

| member | source | states |
|---|---|---|
| `Atmosphere.DefaultInputs` | PA28Performance.py:39-41 | at 15 C, 1000 ft and 29.92 inHg: pressure altitude 1000 ft, standard temperature 13 C, density altitude exactly 1240 ft |
| `Atmosphere.StandardSettingGivesElevation` | PA28Performance.py:36-39 | with the altimeter at 29.92, pressure altitude equals field elevation |
| `Atmosphere.StandardTemperatureGivesPressureAltitude` | PA28Performance.py:40-41 | when the outside temperature is the standard temperature at the field, density altitude equals pressure altitude |
| `Atmosphere.StandardDayAtSeaLevel` | PA28Performance.py:34-41 | 15 C at sea level with 29.92 inHg gives density altitude 0 |
| `Atmosphere.TemperatureSensitivity` | PA28Performance.py:41 | each degree C warmer adds exactly 120 ft of density altitude |
| `Atmosphere.AltimeterSensitivity` | PA28Performance.py:39-41 | each inHg higher on the altimeter takes 1000 ft off density altitude |
| `Atmosphere.ElevationSensitivity` | PA28Performance.py:39-41 | at a fixed temperature, each foot of elevation adds 1.24 ft of density altitude |
| `PerformanceTable.TableShape` | PA28Performance.py:46-64 | 16 weights, 8 curve names, 8 curves, each curve with one value per weight |
| `PerformanceTable.WeightsDescend` | PA28Performance.py:46 | the weights strictly decrease, from 2325 lb (first) down to 1600 lb (last) |
| `PerformanceTable.CurvesDescend` | PA28Performance.py:50-64 | along every curve the value strictly falls as the weight falls |
| `PerformanceTable.CurvesNeverCross` | PA28Performance.py:50-64 | at every weight, each curve lies strictly under the next one |
| `PerformanceTable.BaselineValues` | PA28Performance.py:50-64 | the row-0 baselines are -68, 1402, 2736, 4070, 5404, 6738, 8072, 9406 |
| `PerformanceTable.BaselinesIncrease` | PA28Performance.py:50-64 | the baselines strictly increase in table order, for every pair of curves |
| `BracketSearch.BracketFrom` | PA28Performance.py:75-81 | the scan from pair k returns an index in k..6; that pair brackets strictly or is the last pair; no pair scanned before it brackets |
| `BracketSearch.FindBracket` | PA28Performance.py:75-81 | the loop returns a pair index at most 6, so both curves exist; if some pair brackets, it returns the first one; if none does, it returns 6 (Seven/Eight); it agrees with `Bracket` |
| `BracketSearch.BracketFirstMatch` | PA28Performance.py:75-81 | any index that brackets (or is the last pair) with no bracketing pair before it is the selected one |
| `BracketSearch.BracketUnique` | PA28Performance.py:75-81 | at most one pair strictly brackets a density altitude |
| `BracketSearch.BracketCrossing` | PA28Performance.py:75-81 | above baseline k, below the last baseline and on no baseline, some pair from k on strictly brackets the density altitude |
| `BracketSearch.InsideTable` | PA28Performance.py:75-81 | strictly between -68 and 9406 and on no baseline, the selected pair does bracket the density altitude |
| `BracketSearch.OutsideTableFallsThrough` | PA28Performance.py:75-81 | at or below -68, or at or above 9406, no pair brackets and pair 6 (Seven/Eight) is selected |
| `BracketSearch.OnBaselineFallsThrough` | PA28Performance.py:75-81 | exactly on any baseline, no pair brackets and pair 6 is selected |
| `Interpolation.WeightedMean` | PA28Performance.py:93-94 | with `b = DA - lower`, `d = upper - DA`, and both `d` and `b + d` (that is, `upper - lower`) nonzero, `1 + ratio` is nonzero and `(ratio * y2 + y1) / (1 + ratio) == (b * y2 + d * y1) / (b + d)` |
| `Interpolation.Interpolate` | PA28Performance.py:90-94 | the result is NaN exactly when DA equals the upper baseline; otherwise it is `((DA - lower) * y2 + (upper - DA) * y1) / (upper - lower)` |
| `Interpolation.AtLowerCurve` | PA28Performance.py:90-94 | at the lower baseline the result is exactly `y1` |
| `Interpolation.OnTheLine` | PA28Performance.py:90-94 | for a DA other than the upper baseline, the result lies on the straight line through `(lower, y1)` and `(upper, y2)` |
| `Interpolation.TowardUpperCurve` | PA28Performance.py:90-94 | for a DA other than the upper baseline, the gap to `y2` is `(upper - DA) / (upper - lower) * (y1 - y2)`, so the result approaches `y2` as DA approaches the upper baseline |
| `Interpolation.BetweenReadings` | PA28Performance.py:90-94 | for `lower <= DA < upper` the result lies between `y1` and `y2` |
| `Interpolation.EqualReadings` | PA28Performance.py:90-94 | for a DA other than the upper baseline, equal readings interpolate to that reading |
| `Interpolation.MonotoneInDensityAltitude` | PA28Performance.py:90-94 | if `y1 < y2`, of two density altitudes neither equal to the upper baseline, the higher one gives a strictly higher result |
| `GroundRoll.Evaluate` | PA28Performance.py:39-94 | the estimate's density altitude is the one computed from the query, and its lower curve index is at most 6 |
| `GroundRoll.ComputeGroundRoll` | PA28Performance.py:39-94 | the calculator's statement order computes the reference `Evaluate`; the upper curve index exists; the result is NaN exactly at density altitude 9406 |
| `GroundRoll.NotANumberOnlyAtTop` | PA28Performance.py:75-94 | the division by zero happens for exactly one density altitude, the last baseline 9406 ft |
| `GroundRoll.InsideTableInterpolates` | PA28Performance.py:75-94 | strictly inside the table and off the baselines, the pair brackets, the result is a number, and it lies between the two bracketing curves' readings |
| `GroundRoll.FallThroughExtrapolates` | PA28Performance.py:75-94 | when the search falls through for a density altitude outside 8072..9406, the result is an extrapolation from curves Seven and Eight, with a weight on Eight outside [0, 1] |
| `GroundRoll.BaselineOfCurveTwo` | PA28Performance.py:75-94 | a density altitude of exactly 1402 ft is read off curves Seven and Eight by extrapolation, not off curve Two |
| `GroundRoll.DefaultQuery` | PA28Performance.py:34-94 | the default query gives density altitude 1240 ft, curves One and Two, and interpolated point `(1308 * y2 + 162 * y1) / 1470` |

## Left out

- `np.polyfit`/`np.polyval` (PA28Performance.py:83-86): the least-squares quadratic fit and its evaluation are floating-point library code that is not part of this model. Their results are the parameter `fit` of `Evaluate` and `ComputeGroundRoll`, and nothing is assumed about it.
- The pandas `DataFrame` (PA28Performance.py:70): the table is a constant `seq<seq<int>>`, indexed `Curves[curve][row]`, the same way the code uses `iloc[row, curve]`.
- Building the Plotly figure, its traces, layout and axis ranges (PA28Performance.py:97-178): presentation only. The model returns the numbers the figure is drawn from. This includes the overlaid ground-roll axis, range [0, 2200] (PA28Performance.py:153-165), against the density-altitude axis, range [-6602, 8000] (PA28Performance.py:167-173): the reading of the interpolated point as feet of ground roll, `(point + 6602) * 2200 / 14602`, happens only on the chart and is not modelled.
- `pio.renderers.default` (PA28Performance.py:31): process-wide rendering configuration.
- IEEE double rounding: all arithmetic is over exact reals. For example, OAT 16.35 C at 1000 ft and 29.92 inHg gives exactly 1402 ft here, which falls through to curves Seven and Eight (`BaselineOfCurveTwo`); in doubles the same inputs give 1402.0000000000002 ft, which the scan brackets with curves Two and Three. Infinities are not modelled; in exact arithmetic the NaN produced at `dist_top == 0` is the one non-number the pipeline can reach, and it is `Reading.NotANumber`. In doubles a huge density altitude (around 2^70 ft) rounds `dist_bot` and `dist_top` to opposite values, making `1 + ratio` zero; the model gives a finite extrapolation there.
- The RuntimeWarning numpy prints on the division by zero at `dist_top == 0`: output only.
- Input widgets and their suggested bounds: the model accepts any real inputs, as the calculator does.
