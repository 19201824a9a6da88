/** The pattern predicates of capintel/strategy/my_strategy.py: the length of
    the final run of one sign, deceleration of a series' magnitude and
    proximity of a price to a level. */
module Patterns {
  import opened Arith
  import opened Indicators

  /** `np.sign` */
  function Sign(x: real): (s: int)
    ensures s == -1 || s == 0 || s == 1
    ensures (s > 0 <==> x > 0.0) && (s < 0 <==> x < 0.0)
  {
    if x > 0.0 then 1 else if x < 0.0 then -1 else 0
  }

  /** `x` is strictly positive (`positive`) or strictly negative (otherwise). */
  predicate HasSign(x: real, positive: bool) {
    if positive then x > 0.0 else x < 0.0
  }

  /** The last `ln` entries all have the requested sign and the entry before
      them, if any, does not: `ln` is the length of the final run. */
  ghost predicate IsTailRun(values: seq<real>, positive: bool, ln: nat) {
    ln <= |values| &&
    (forall k :: |values| - ln <= k < |values| ==> HasSign(values[k], positive)) &&
    (ln < |values| ==> !HasSign(values[|values| - 1 - ln], positive))
  }

  /** `_last_streak_length`: walks the signs from the newest entry backwards,
      counting while they match and stopping at a zero or the other sign. */
  method LastStreakLength(values: seq<real>, positive: bool) returns (ln: nat)
    ensures IsTailRun(values, positive, ln)
  {
    if |values| == 0 {
      return 0;
    }
    var sign := if positive then 1 else -1;
    ln := 0;
    var i := |values|;
    while i > 0
      invariant 0 <= i <= |values| && ln == |values| - i
      invariant forall k :: i <= k < |values| ==> HasSign(values[k], positive)
    {
      var x := Sign(values[i - 1]);
      if (x > 0 && sign > 0) || (x < 0 && sign < 0) {
        ln := ln + 1;
      } else if x == 0 {
        break;
      } else {
        break;
      }
      i := i - 1;
    }
  }

  /** The final run has one length only. */
  lemma TailRunUnique(values: seq<real>, positive: bool, a: nat, b: nat)
    requires IsTailRun(values, positive, a) && IsTailRun(values, positive, b)
    ensures a == b
  {
  }

  /** The run is empty exactly when the newest entry is zero or of the other sign. */
  lemma TailRunEmpty(values: seq<real>, positive: bool, ln: nat)
    requires IsTailRun(values, positive, ln)
    ensures ln == 0 <==> |values| == 0 || !HasSign(values[|values| - 1], positive)
  {}

  /** A positive and a negative final run cannot both be non-empty. */
  lemma StreaksExclusive(values: seq<real>, up: nat, down: nat)
    requires IsTailRun(values, true, up) && IsTailRun(values, false, down)
    ensures up == 0 || down == 0
  {
    assert up > 0 ==> values[|values| - 1] > 0.0;
  }

  /** The first index of the window `_deceleration_abs` inspects: the last
      `lookback` entries, or all of them for a lookback of 0 (Python's
      `v[-0:]` is the whole array). */
  function WindowStart(n: nat, lookback: nat): (start: nat)
    requires lookback <= n
    ensures start <= n
    ensures lookback > 0 ==> n - start == lookback
    ensures lookback == 0 ==> start == 0
  {
    if lookback == 0 then 0 else n - lookback
  }

  /** Each magnitude from `start` on is at most the one before it. */
  predicate AdjacentNonGrowing(values: seq<real>, start: nat)
    requires start <= |values|
  {
    forall k :: start < k < |values| ==> Abs(values[k]) <= Abs(values[k - 1])
  }

  /** Every later magnitude from `start` on is at most every earlier one. */
  ghost predicate NonGrowing(values: seq<real>, start: nat)
    requires start <= |values|
  {
    forall i, j :: start <= i <= j < |values| ==> Abs(values[j]) <= Abs(values[i])
  }

  /** Adjacent steps that never grow chain into a non-growing window. */
  lemma {:induction false} AdjacentChains(values: seq<real>, start: nat)
    requires start <= |values|
    ensures AdjacentNonGrowing(values, start) <==> NonGrowing(values, start)
  {
    if AdjacentNonGrowing(values, start) {
      forall i, j | start <= i <= j < |values|
        ensures Abs(values[j]) <= Abs(values[i])
      {
        var k := i;
        while k < j
          invariant i <= k <= j
          invariant Abs(values[k]) <= Abs(values[i])
        {
          k := k + 1;
        }
      }
    }
  }

  /** `_deceleration_abs`: false with fewer than lookback + 3 values, otherwise
      whether the magnitudes of the inspected tail never grow step to step. */
  function DecelerationAbs(values: seq<real>, lookback: nat): (r: bool)
    ensures r <==> |values| >= lookback + 3 && NonGrowing(values, WindowStart(|values|, lookback))
  {
    if |values| < lookback + 3 then false
    else
      var start := WindowStart(|values|, lookback);
      AdjacentChains(values, start);
      AdjacentNonGrowing(values, start)
  }

  /** A clipped series whose last three values were not positive is all zeros
      there, so it counts as decelerating: `macd_decel_pos` holds whenever the
      histogram has stopped being positive, and likewise for the negative side. */
  lemma ClippedSilentSideDecelerates(values: seq<real>)
    requires |values| >= 6
    requires forall k :: |values| - 3 <= k < |values| ==> values[k] <= 0.0
    ensures DecelerationAbs(ClipLower(values), 3)
  {
    var c := ClipLower(values);
    assert forall k :: |values| - 3 <= k < |values| ==> c[k] == 0.0;
    assert AdjacentNonGrowing(c, |c| - 3);
    AdjacentChains(c, |c| - 3);
  }

  /** `_near`: no level at or below zero is near; otherwise the relative
      distance must be within the tolerance. */
  function Near(price: real, level: real, tol: real): bool {
    if level <= 0.0 then false else Abs(price - level) / level <= tol
  }

  /** `Near` is the band of half-width `tol * level` around a positive level. */
  lemma NearMeans(price: real, level: real, tol: real)
    ensures Near(price, level, tol) <==> level > 0.0 && Abs(price - level) <= tol * level
    ensures Near(price, level, tol) <==> level > 0.0 && level - tol * level <= price <= level + tol * level
  {
    if level > 0.0 {
      RelativeDistance(Abs(price - level), level, tol);
    }
  }

  /** Dividing by a positive level preserves the comparison with the tolerance. */
  lemma RelativeDistance(dist: real, level: real, tol: real)
    requires level > 0.0
    ensures dist / level <= tol <==> dist <= tol * level
  {
    var q := dist / level;
    assert q * level == dist;
    assert (tol - q) * level == tol * level - dist;
    PositiveFactor(tol - q, level);
    PositiveFactor(q - tol, level);
  }
}
