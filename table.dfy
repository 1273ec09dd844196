/** The fixed reference data of the PA-28-161 ground-roll chart: sixteen
    weights and eight named density-altitude curves, one value per weight. */
module PerformanceTable {

  /** Aircraft weights (lb) the curves are sampled at, heaviest first. */
  const Weights: seq<int> :=
    [2325, 2300, 2250, 2200, 2150, 2100, 2050, 2000, 1950, 1900, 1850, 1800, 1750, 1700, 1650, 1600]

  /** Column names of the table, in table order. */
  const CurveNames: seq<string> := ["One", "Two", "Three", "Four", "Five", "Six", "Seven", "Eight"]

  /** Curves[c][k] is the value of curve c at weight Weights[k]. */
  const Curves: seq<seq<int>> := [
    [-68, -220, -510, -840, -1120, -1450, -1725, -1985, -2275, -2530, -2785, -3050, -3278, -3490, -3700, -3910],
    [1402, 1200, 800, 400, 10, -375, -765, -1115, -1450, -1790, -2125, -2415, -2690, -2950, -3225, -3475],
    [2736, 2485, 2015, 1555, 1080, 665, 225, -200, -585, -950, -1350, -1700, -1995, -2300, -2560, -2810],
    [4070, 3800, 3250, 2700, 2225, 1725, 1250, 750, 350, -100, -550, -925, -1275, -1625, -1935, -2250],
    [5404, 5100, 4500, 3950, 3350, 2750, 2200, 1700, 1200, 685, 225, -225, -650, -995, -1375, -1700],
    [6738, 6400, 5800, 5175, 4600, 4000, 3450, 2850, 2350, 1775, 1275, 775, 300, -150, -600, -995],
    [8072, 7650, 7000, 6350, 5650, 5000, 4375, 3750, 3150, 2565, 2000, 1450, 950, 410, -50, -450],
    [9406, 8875, 8150, 7450, 6700, 6050, 5375, 4700, 4050, 3400, 2800, 2200, 1600, 1100, 550, 100]
  ]

  /** Every pair of positions is ordered, not just neighbours. */
  predicate StrictlyDecreasing(s: seq<int>) {
    forall i, j :: 0 <= i < j < |s| ==> s[i] > s[j]
  }

  /** Each value is below the one before it. */
  predicate DescendingSteps(s: seq<int>) {
    forall k :: 0 < k < |s| ==> s[k - 1] > s[k]
  }

  /** lo lies strictly under hi at every common position. */
  predicate Below(lo: seq<int>, hi: seq<int>) {
    forall k :: 0 <= k < |lo| && k < |hi| ==> lo[k] < hi[k]
  }

  lemma {:induction false} DescendingStepsOrderAll(s: seq<int>)
    requires DescendingSteps(s)
    ensures StrictlyDecreasing(s)
  {
    if |s| > 1 {
      DescendingStepsOrderAll(s[1..]);
      assert s[0] > s[1];
      forall j | 1 <= j < |s| ensures s[0] > s[j] {
        if j > 1 { assert s[1..][0] > s[1..][j - 1]; }
      }
      forall i, j | 1 <= i < j < |s| ensures s[i] > s[j] {
        assert s[1..][i - 1] > s[1..][j - 1];
      }
    }
  }

  lemma TableShape()
    ensures |Weights| == 16 && |CurveNames| == 8 && |Curves| == 8
    ensures forall c :: 0 <= c < |Curves| ==> |Curves[c]| == |Weights|
  {
  }

  lemma WeightsDescend()
    ensures StrictlyDecreasing(Weights)
    ensures Weights[0] == 2325 && Weights[|Weights| - 1] == 1600
  {
  }

  /** Along every curve the value falls as the weight falls. */
  lemma CurvesDescend()
    ensures forall c :: 0 <= c < |Curves| ==> StrictlyDecreasing(Curves[c])
  {
    forall c | 0 <= c < |Curves| ensures StrictlyDecreasing(Curves[c]) {
      assert DescendingSteps(Curves[c]);
      DescendingStepsOrderAll(Curves[c]);
    }
  }

  /** At every weight, curve c lies under curve c + 1. */
  lemma CurvesNeverCross()
    ensures forall c :: 0 < c < |Curves| ==> Below(Curves[c - 1], Curves[c])
  {
  }

  /** The density altitude (ft) a curve is labelled with: its value at the
      heaviest weight, row 0 of the table. */
  function Baseline(c: nat): int
    requires c < |Curves|
  {
    Curves[c][0]
  }

  lemma BaselineValues()
    ensures Baseline(0) == -68 && Baseline(1) == 1402 && Baseline(2) == 2736 && Baseline(3) == 4070
    ensures Baseline(4) == 5404 && Baseline(5) == 6738 && Baseline(6) == 8072 && Baseline(7) == 9406
  {
  }

  /** The curves are listed in increasing density altitude. */
  lemma BaselinesIncrease()
    ensures forall i, j :: 0 <= i < j < |Curves| ==> Baseline(i) < Baseline(j)
  {
  }
}
