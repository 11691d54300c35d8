/**
 * The two tests that decide whether a rebalancing round runs: the step test
 * of `after_training_step` and the shard-size test of `redistribute`.
 */
module Gating {

  /** What `after_training_step` does for one step. */
  datatype StepDecision =
    | NotScheduled   // returns without redistributing
    | Scheduled      // calls `redistribute`
    | ZeroDivision   // `step % 0` raises before anything is decided

  /**
   * `after_training_step`: a negative interval switches rebalancing off,
   * steps from `until` on are never scheduled, and otherwise every step that
   * is a multiple of the interval is. An interval of 0 is not guarded against:
   * the modulo raises. (For a positive divisor Python's floored `%` and
   * Dafny's Euclidean `%` agree.)
   */
  function StepGate(interval: int, until: int, step: int): (d: StepDecision)
    ensures d == Scheduled <==> interval > 0 && step < until && step % interval == 0
    ensures d == ZeroDivision <==> interval == 0 && step < until
  {
    if interval < 0 then NotScheduled
    else if step >= until then NotScheduled
    else if interval == 0 then ZeroDivision
    else if step % interval != 0 then NotScheduled
    else Scheduled
  }

  /** `min(...)` of a non-empty list of sizes. */
  function MinOf(xs: seq<nat>): (m: nat)
    requires |xs| > 0
    ensures m in xs && forall i :: 0 <= i < |xs| ==> m <= xs[i]
  {
    if |xs| == 1 then xs[0]
    else
      var rest := MinOf(xs[1..]);
      assert forall i :: 1 <= i < |xs| ==> xs[i] == xs[1..][i - 1];
      if xs[0] <= rest then xs[0] else rest
  }

  /** `max(...)` of a non-empty list of sizes. */
  function MaxOf(xs: seq<nat>): (m: nat)
    requires |xs| > 0
    ensures m in xs && forall i :: 0 <= i < |xs| ==> xs[i] <= m
  {
    if |xs| == 1 then xs[0]
    else
      var rest := MaxOf(xs[1..]);
      assert forall i :: 1 <= i < |xs| ==> xs[i] == xs[1..][i - 1];
      if xs[0] >= rest then xs[0] else rest
  }

  /**
   * The test of `redistribute` over the gathered shard sizes: a round runs
   * only when `min * threshold < max`.
   */
  predicate SizeGateDue(sizes: seq<nat>, threshold: real)
    requires |sizes| > 0
  {
    Skewed(MinOf(sizes), MaxOf(sizes), threshold)
  }

  /** `a * threshold < b`: shard a, scaled by the threshold, is still smaller than b. */
  predicate Skewed(a: nat, b: nat, threshold: real)
  {
    (a as real) * threshold < b as real
  }

  // ---------------------------------------------------------------------
  // Lemmas
  // ---------------------------------------------------------------------

  /** Scaling a smaller shard or comparing with a larger one keeps a skew. */
  lemma SkewedMonotone(a: nat, a': nat, b: nat, b': nat, t: real)
    requires a' <= a && b <= b' && t >= 0.0 && Skewed(a, b, t)
    ensures Skewed(a', b', t)
  {
    assert (a as real) * t == (a' as real) * t + ((a - a') as real) * t;
  }

  /** With a threshold of at least 1, a skew needs a strictly smaller shard. */
  lemma SkewedNeedsSmaller(a: nat, b: nat, t: real)
    requires t >= 1.0 && Skewed(a, b, t)
    ensures a < b
  {
    var x := a as real;
    assert x * t == x + x * (t - 1.0);
    assert x * (t - 1.0) >= 0.0;
  }

  /**
   * For a non-negative threshold the size test fires exactly when some shard,
   * scaled by the threshold, is still smaller than some other shard.
   */
  lemma SizeGateDueIff(sizes: seq<nat>, threshold: real)
    requires |sizes| > 0 && threshold >= 0.0
    ensures SizeGateDue(sizes, threshold) <==>
            exists i, j :: 0 <= i < |sizes| && 0 <= j < |sizes| && Skewed(sizes[i], sizes[j], threshold)
  {
    var lo, hi := MinOf(sizes), MaxOf(sizes);
    if SizeGateDue(sizes, threshold) {
      var i :| 0 <= i < |sizes| && sizes[i] == lo;
      var j :| 0 <= j < |sizes| && sizes[j] == hi;
      assert Skewed(sizes[i], sizes[j], threshold);
    } else {
      forall i, j | 0 <= i < |sizes| && 0 <= j < |sizes| && Skewed(sizes[i], sizes[j], threshold)
        ensures false
      {
        SkewedMonotone(sizes[i], lo, sizes[j], hi, threshold);
      }
    }
  }

  /**
   * With a threshold of at least 1, equal shard sizes never trigger a round,
   * and a round is only ever triggered by shards of different sizes.
   */
  lemma SizeGateNeedsImbalance(sizes: seq<nat>, threshold: real)
    requires |sizes| > 0 && threshold >= 1.0
    ensures SizeGateDue(sizes, threshold) ==>
            exists i, j :: 0 <= i < |sizes| && 0 <= j < |sizes| && sizes[i] < sizes[j]
    ensures (forall i :: 0 <= i < |sizes| ==> sizes[i] == sizes[0]) ==> !SizeGateDue(sizes, threshold)
  {
    SizeGateDueIff(sizes, threshold);
    if SizeGateDue(sizes, threshold) {
      var i, j :| 0 <= i < |sizes| && 0 <= j < |sizes| && Skewed(sizes[i], sizes[j], threshold);
      SkewedNeedsSmaller(sizes[i], sizes[j], threshold);
    }
  }
}
