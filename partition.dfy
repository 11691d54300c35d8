/**
 * The initial partition made by `training_setup`: the global property
 * columns are cut into W contiguous slices, member `rank` keeping
 * `[p * rank, p * rank + p)` with `p = round(n / W)`, and the last member
 * keeping everything from its lower bound to the end. The slices are taken
 * with Python's clamping slice semantics.
 */
module Partition {
  import opened Collective

  function Min(a: int, b: int): int { if a <= b then a else b }

  function Max(a: int, b: int): int { if a <= b then b else a }

  /**
   * Python's `round(n / w)` on a non-negative quotient, computed exactly:
   * a nearest integer to `n / w`, and on a tie (a remainder of exactly half
   * of `w`) the even one.
   */
  function RoundHalfEven(n: nat, w: nat): (p: nat)
    requires w > 0
    ensures 2 * (p * w - n) <= w && 2 * (n - p * w) <= w
    ensures 2 * (n % w) == w ==> p % 2 == 0
  {
    var q, rem := n / w, n % w;
    var p := if 2 * rem > w then q + 1
             else if 2 * rem < w then q
             else if q % 2 == 0 then q
             else q + 1;
    NearestCandidate(n, w, p);
    p
  }

  /** `n / w` rounded down or up is a nearest integer to `n / w` on its side of the half. */
  lemma NearestCandidate(n: nat, w: nat, p: nat)
    requires w > 0
    requires (p == n / w && 2 * (n % w) <= w) || (p == n / w + 1 && 2 * (n % w) >= w)
    ensures 2 * (p * w - n) <= w && 2 * (n - p * w) <= w
  {
    DivModFacts(n, w);
  }

  lemma DivModFacts(n: nat, w: nat)
    requires w > 0
    ensures n == (n / w) * w + n % w && 0 <= n % w < w
    ensures (n / w + 1) * w == (n / w) * w + w
  {
  }

  /** The `[l, r)` bounds member `rank` computes for itself. */
  function SliceBounds(n: nat, w: nat, rank: nat, p: nat): (nat, nat)
    requires rank < w
  {
    var l := p * rank;
    (l, if rank + 1 == w then n else l + p)
  }

  /**
   * Python's `xs[l:r]` for non-negative bounds: both bounds are clamped to
   * the length, and a stop before the start yields the empty slice.
   */
  function PySlice<T>(xs: seq<T>, l: nat, r: nat): (s: seq<T>)
    ensures l <= r <= |xs| ==> s == xs[l..r]
    ensures l <= |xs| < r ==> s == xs[l..]
    ensures |xs| <= l || r <= l ==> s == []
  {
    var start := Min(l, |xs|);
    var stop := Max(start, Min(r, |xs|));
    xs[start..stop]
  }

  /** The slice of a global column that member `rank` keeps. */
  function Shard<T>(xs: seq<T>, w: nat, rank: nat, p: nat): seq<T>
    requires rank < w
  {
    var b := SliceBounds(|xs|, w, rank, p);
    PySlice(xs, b.0, b.1)
  }

  /** The slices of all members, in rank order. */
  function Shards<T>(xs: seq<T>, w: nat, p: nat): (ss: seq<seq<T>>)
    ensures |ss| == w
  {
    seq(w, k requires 0 <= k < w => Shard(xs, w, k, p))
  }

  /** First global index member k holds, after clamping. */
  function Lo(n: nat, k: nat, p: nat): nat
  {
    Min(p * k, n)
  }

  /** One past the last global index member k holds, after clamping. */
  function Hi(n: nat, w: nat, k: nat, p: nat): nat
  {
    if k + 1 == w then n else Min(p * k + p, n)
  }

  /** The member that holds global index i. */
  function Owner(w: nat, p: nat, i: nat): nat
    requires w > 0
  {
    if p == 0 then w - 1 else Min(i / p, w - 1)
  }

  // ---------------------------------------------------------------------
  // Lemmas
  // ---------------------------------------------------------------------

  /** The clamped slice is exactly the global range `[Lo, Hi)`. */
  lemma ShardRange<T>(xs: seq<T>, w: nat, k: nat, p: nat)
    requires k < w
    ensures Lo(|xs|, k, p) <= Hi(|xs|, w, k, p) <= |xs|
    ensures Shard(xs, w, k, p) == xs[Lo(|xs|, k, p)..Hi(|xs|, w, k, p)]
  {
  }

  lemma DivLowerBound(i: nat, p: nat, k: nat)
    requires p > 0
    ensures p * k <= i <==> k <= i / p
  {
    var q := i / p;
    assert i == p * q + i % p;
    if k <= q {
      assert p * k <= p * q by { MulMonotone(p, k, q); }
    } else {
      assert p * (q + 1) <= p * k by { MulMonotone(p, q + 1, k); }
      assert p * (q + 1) == p * q + p;
    }
  }

  lemma MulMonotone(p: nat, a: nat, b: nat)
    requires a <= b
    ensures p * a <= p * b
  {
    assert p * b == p * a + p * (b - a);
  }

  /**
   * Every global index in `[0, n)` lies in exactly one member's slice: the
   * one `Owner` names. This holds whatever `p` the rounding produced.
   */
  lemma OwnerExactlyOne(n: nat, w: nat, p: nat, i: nat, k: nat)
    requires i < n && k < w
    ensures Lo(n, k, p) <= i < Hi(n, w, k, p) <==> k == Owner(w, p, i)
  {
    if p > 0 {
      DivLowerBound(i, p, k);
      DivLowerBound(i, p, k + 1);
      assert p * (k + 1) == p * k + p;
    }
  }

  /** A non-last slice ends where the next one starts. */
  lemma AdjacentSlices(n: nat, w: nat, k: nat, p: nat)
    requires k + 1 < w
    ensures Lo(n, k, p) <= Lo(n, k + 1, p) == Hi(n, w, k, p)
  {
    assert p * (k + 1) == p * k + p;
  }

  /** The first k slices (k < W) together are the prefix up to `Lo(k)`. */
  lemma {:induction false} PrefixOfShards<T>(xs: seq<T>, w: nat, p: nat, k: nat)
    requires k < w
    ensures Flatten(Shards(xs, w, p)[..k]) == xs[..Lo(|xs|, k, p)]
  {
    if k > 0 {
      var ss := Shards(xs, w, p);
      var n := |xs|;
      var a, b := Lo(n, k - 1, p), Lo(n, k, p);
      assert Flatten(ss[..k]) == Flatten(ss[..k - 1]) + ss[k - 1] by {
        assert ss[..k] == ss[..k - 1] + [ss[k - 1]];
        FlattenSnoc(ss[..k - 1], ss[k - 1]);
      }
      assert Flatten(ss[..k - 1]) == xs[..a] by {
        PrefixOfShards(xs, w, p, k - 1);
      }
      assert a <= b <= n && ss[k - 1] == xs[a..b] by {
        ShardRange(xs, w, k - 1, p);
        AdjacentSlices(n, w, k - 1, p);
      }
      assert xs[..a] + xs[a..b] == xs[..b];
    }
  }

  /**
   * Concatenating all members' slices in rank order gives back the global
   * column: nothing is lost and nothing is held twice.
   */
  lemma SlicesReassemble<T>(xs: seq<T>, w: nat, p: nat)
    requires w > 0
    ensures Flatten(Shards(xs, w, p)) == xs
  {
    var ss := Shards(xs, w, p);
    PrefixOfShards(xs, w, p, w - 1);
    ShardRange(xs, w, w - 1, p);
    assert ss == ss[..w - 1] + [ss[w - 1]];
    FlattenSnoc(ss[..w - 1], ss[w - 1]);
  }

  /** The slice lengths add up to the global count. */
  lemma SliceLengthsSum<T>(xs: seq<T>, w: nat, p: nat)
    requires w > 0
    ensures Sum(Lengths(Shards(xs, w, p))) == |xs|
  {
    SlicesReassemble(xs, w, p);
    FlattenLength(Shards(xs, w, p));
  }

  /** The loop of `training_setup` over the property store: every property sliced to `[l, r)`. */
  method SliceProperties<T>(properties: map<string, seq<T>>, l: nat, r: nat) returns (sliced: map<string, seq<T>>)
    ensures sliced.Keys == properties.Keys
    ensures forall name :: name in properties ==> sliced[name] == PySlice(properties[name], l, r)
  {
    sliced := map[];
    var remaining := properties.Keys;
    while remaining != {}
      invariant remaining <= properties.Keys
      invariant sliced.Keys == properties.Keys - remaining
      invariant forall name :: name in sliced ==> sliced[name] == PySlice(properties[name], l, r)
      decreases |remaining|
    {
      var name :| name in remaining;
      sliced := sliced[name := PySlice(properties[name], l, r)];
      remaining := remaining - {name};
    }
  }

  /**
   * The renderer of one member: `__init__` sets a single-member world, and
   * `training_setup` records the member's place in the process group, cuts
   * its slice out of every global property and notifies the density
   * callback once (counted by `densityChanged`). Once every member has run
   * `training_setup`, the renderers of the whole group are what
   * `Redistribution.Cluster` holds, with the `worldSize` recorded here.
   */
  class Renderer {
    var worldSize: nat
    var globalRank: nat
    var densityChanged: nat

    constructor ()
      ensures worldSize == 1 && globalRank == 0 && densityChanged == 0
    {
      worldSize := 1;
      globalRank := 0;
      densityChanged := 0;
    }

    method TrainingSetup<T>(worldSize': nat, globalRank': nat, nGaussians: nat,
                            properties: map<string, seq<T>>)
      returns (l: nat, r: nat, newTensors: map<string, seq<T>>)
      requires globalRank' < worldSize'
      modifies this
      ensures worldSize == worldSize' && globalRank == globalRank'
      ensures (l, r) == SliceBounds(nGaussians, worldSize', globalRank', RoundHalfEven(nGaussians, worldSize'))
      ensures newTensors.Keys == properties.Keys
      ensures forall name :: name in properties ==> newTensors[name] == PySlice(properties[name], l, r)
      ensures densityChanged == old(densityChanged) + 1
    {
      worldSize := worldSize';
      globalRank := globalRank';

      var perMember := RoundHalfEven(nGaussians, worldSize);
      l := perMember * globalRank;
      r := l + perMember;
      if globalRank + 1 == worldSize {
        r := nGaussians;
      }

      newTensors := SliceProperties(properties, l, r);
      densityChanged := densityChanged + 1;
    }
  }
}
