/** The search for the two adjacent curves whose baselines bracket a
    density altitude. The scan takes the first pair that brackets strictly;
    when none does, the loop runs out and its index is left on the last pair
    (curves Seven and Eight), which the rest of the calculation then uses. */
module BracketSearch {
  import opened PerformanceTable

  /** Index of the last adjacent pair, the one the scan falls through to. */
  const LastPair: nat := |Curves| - 2

  /** Curves i and i + 1 strictly bracket da by their baselines. */
  predicate Brackets(i: nat, da: real)
    requires i < LastPair + 1
  {
    Baseline(i) as real < da < Baseline(i + 1) as real
  }

  /** Reference definition of the scan, started at pair k. */
  function BracketFrom(da: real, k: nat): (i: nat)
    requires k <= LastPair
    ensures k <= i <= LastPair
    ensures Brackets(i, da) || i == LastPair
    ensures forall j :: k <= j < i ==> !Brackets(j, da)
    decreases LastPair - k
  {
    if k == LastPair || Brackets(k, da) then k else BracketFrom(da, k + 1)
  }

  /** The pair the calculator selects for density altitude da. */
  function Bracket(da: real): nat {
    BracketFrom(da, 0)
  }

  /** The scan as the calculator runs it: a loop over the pairs that stops at
      the first strict bracket, leaving its index on the last pair tried. */
  method FindBracket(da: real) returns (i: nat)
    ensures i <= LastPair
    ensures (exists j :: 0 <= j <= LastPair && Brackets(j, da)) ==>
      Brackets(i, da) && forall j :: 0 <= j < i ==> !Brackets(j, da)
    ensures (forall j :: 0 <= j <= LastPair ==> !Brackets(j, da)) ==> i == LastPair
    ensures i == Bracket(da)
  {
    i := 0;
    for k := 0 to |Curves| - 1
      invariant forall j :: 0 <= j < k ==> !Brackets(j, da)
      invariant i == if k == 0 then 0 else k - 1
    {
      i := k;
      var lower := Curves[k][0];
      var upper := Curves[k + 1][0];
      if lower as real < da < upper as real {
        break;
      }
    }
    BracketFirstMatch(da, i);
  }

  /** Bracket(da) is the first strictly bracketing pair, or the last pair. */
  lemma BracketFirstMatch(da: real, i: nat)
    requires i <= LastPair
    requires Brackets(i, da) || i == LastPair
    requires forall j :: 0 <= j < i ==> !Brackets(j, da)
    ensures Bracket(da) == i
  {
  }

  /** The baselines increase, so no two pairs bracket the same density altitude. */
  lemma BracketUnique(da: real, i: nat, j: nat)
    requires i <= LastPair && j <= LastPair
    requires Brackets(i, da) && Brackets(j, da)
    ensures i == j
  {
    BaselinesIncrease();
  }

  /** A density altitude strictly inside the table and not on any baseline is
      bracketed, and the search selects that pair. */
  lemma InsideTable(da: real)
    requires Baseline(0) as real < da < Baseline(LastPair + 1) as real
    requires forall c :: 0 <= c <= LastPair + 1 ==> da != Baseline(c) as real
    ensures Brackets(Bracket(da), da)
  {
    var k := BracketCrossing(da, 0);
  }

  /** Some pair at or after k brackets da when da lies above baseline k and
      below the last baseline without meeting any baseline. */
  lemma {:induction false} BracketCrossing(da: real, k: nat) returns (i: nat)
    requires k <= LastPair
    requires Baseline(k) as real < da < Baseline(LastPair + 1) as real
    requires forall c :: 0 <= c <= LastPair + 1 ==> da != Baseline(c) as real
    ensures k <= i <= LastPair && Brackets(i, da)
    decreases LastPair - k
  {
    if da < Baseline(k + 1) as real {
      i := k;
    } else {
      assert da != Baseline(k + 1) as real;
      i := BracketCrossing(da, k + 1);
    }
  }

  /** Below the first baseline or at or above the last one nothing brackets,
      and the search silently falls through to curves Seven and Eight. */
  lemma OutsideTableFallsThrough(da: real)
    requires da <= Baseline(0) as real || da >= Baseline(LastPair + 1) as real
    ensures forall j :: 0 <= j <= LastPair ==> !Brackets(j, da)
    ensures Bracket(da) == LastPair
  {
    BaselinesIncrease();
  }

  /** A density altitude exactly on a baseline is not strictly bracketed by
      any pair, so it too falls through to curves Seven and Eight. */
  lemma OnBaselineFallsThrough(da: real, c: nat)
    requires c <= LastPair + 1 && da == Baseline(c) as real
    ensures forall j :: 0 <= j <= LastPair ==> !Brackets(j, da)
    ensures Bracket(da) == LastPair
  {
    BaselinesIncrease();
  }
}
