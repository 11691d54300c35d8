/**
 * Sequence vocabulary shared by the whole model, and the collectives of the
 * process group as pure functions over the global state.
 *
 * The global state of a W-member group is a sequence indexed by rank. An
 * all-to-all in which member s sends send[s][r] to member r is the transpose
 * of the W x W matrix of payloads; an all-gather hands every member the same
 * rank-indexed sequence.
 */
module Collective {

  datatype Option<T> = None | Some(value: T)

  /** Sum of a sequence of naturals (recursion from the end, like Flatten). */
  function Sum(xs: seq<nat>): nat
  {
    if xs == [] then 0 else Sum(xs[..|xs| - 1]) + xs[|xs| - 1]
  }

  /** The length of every part. */
  function Lengths<T>(xss: seq<seq<T>>): (ls: seq<nat>)
    ensures |ls| == |xss|
    ensures forall i :: 0 <= i < |xss| ==> ls[i] == |xss[i]|
  {
    seq(|xss|, i requires 0 <= i < |xss| => |xss[i]|)
  }

  /** `torch.concat(parts, dim=0)`: the parts one after the other. */
  function Flatten<T>(xss: seq<seq<T>>): seq<T>
  {
    if xss == [] then [] else Flatten(xss[..|xss| - 1]) + xss[|xss| - 1]
  }

  /** Concatenates every row of a matrix of parts. */
  function Concats<T>(m: seq<seq<seq<T>>>): (c: seq<seq<T>>)
    ensures |c| == |m|
  {
    seq(|m|, i requires 0 <= i < |m| => Flatten(m[i]))
  }

  /** Part-wise concatenation of two equally long sequences of parts. */
  function Pairwise<T>(a: seq<seq<T>>, b: seq<seq<T>>): (c: seq<seq<T>>)
    requires |a| == |b|
    ensures |c| == |a|
  {
    seq(|a|, i requires 0 <= i < |a| => a[i] + b[i])
  }

  /** Number of `true` entries of a boolean mask (`mask.sum()`). */
  function CountTrue(mask: seq<bool>): nat
  {
    if mask == [] then 0 else (if mask[0] then 1 else 0) + CountTrue(mask[1..])
  }

  /**
   * Boolean-mask indexing `xs[mask]`: the entries whose mask bit is set, in
   * their original order.
   */
  function Masked<T>(xs: seq<T>, mask: seq<bool>): (ys: seq<T>)
    requires |xs| == |mask|
    ensures |ys| == CountTrue(mask)
  {
    if xs == [] then []
    else (if mask[0] then [xs[0]] else []) + Masked(xs[1..], mask[1..])
  }

  function Map<T, U>(f: T -> U, xs: seq<T>): (ys: seq<U>)
    ensures |ys| == |xs|
  {
    seq(|xs|, i requires 0 <= i < |xs| => f(xs[i]))
  }

  function Zip<A, B>(a: seq<A>, b: seq<B>): (z: seq<(A, B)>)
    requires |a| == |b|
    ensures |z| == |a|
  {
    seq(|a|, i requires 0 <= i < |a| => (a[i], b[i]))
  }

  /** Two lists of aligned parts side by side, part by part. */
  function ZipCols<A, B>(c1: seq<seq<A>>, c2: seq<seq<B>>): (z: seq<seq<(A, B)>>)
    requires |c1| == |c2| && forall s :: 0 <= s < |c1| ==> |c1[s]| == |c2[s]|
    ensures |z| == |c1|
  {
    seq(|c1|, s requires 0 <= s < |c1| => Zip(c1[s], c2[s]))
  }

  /** Every row of `m` holds exactly `w` entries. */
  predicate Rectangular<T>(m: seq<seq<T>>, w: nat)
  {
    forall s :: 0 <= s < |m| ==> |m[s]| == w
  }

  /**
   * The all-to-all collective: member r receives, from every member s in rank
   * order, what s addressed to r.
   */
  function Transpose<T>(m: seq<seq<T>>, w: nat): (t: seq<seq<T>>)
    requires Rectangular(m, w)
    ensures |t| == w && Rectangular(t, |m|)
    ensures forall r, s :: 0 <= r < w && 0 <= s < |m| ==> t[r][s] == m[s][r]
  {
    seq(w, r requires 0 <= r < w => seq(|m|, s requires 0 <= s < |m| => m[s][r]))
  }

  /**
   * `all_to_all` of one count per destination: counts[s][r] is what member s
   * announces to member r; the result [r][s] is what r learns from s.
   */
  function ExchangeSizes(counts: seq<seq<nat>>): (received: seq<seq<nat>>)
    requires Rectangular(counts, |counts|)
    ensures |received| == |counts| && Rectangular(received, |counts|)
    ensures forall r, s :: 0 <= r < |counts| && 0 <= s < |counts| ==> received[r][s] == counts[s][r]
  {
    Transpose(counts, |counts|)
  }

  /** Every receive buffer r pre-sized for source s fits what s sends to r. */
  predicate CapacitiesFit<T>(send: seq<seq<seq<T>>>, capacities: seq<seq<nat>>)
    requires Rectangular(send, |send|) && |capacities| == |send| && Rectangular(capacities, |send|)
  {
    forall r, s :: 0 <= r < |send| && 0 <= s < |send| ==> |send[s][r]| == capacities[r][s]
  }

  /**
   * `all_to_all(output_tensor_list, input_tensor_list)` over ragged payloads:
   * the receive buffers are pre-sized from an earlier size exchange; a buffer
   * that does not match its payload is a fatal consistency error (None).
   */
  function ExchangeVariable<T>(send: seq<seq<seq<T>>>, capacities: seq<seq<nat>>): (received: Option<seq<seq<seq<T>>>>)
    requires Rectangular(send, |send|) && |capacities| == |send| && Rectangular(capacities, |send|)
    ensures received.Some? <==> CapacitiesFit(send, capacities)
    ensures received.Some? ==> |received.value| == |send| && Rectangular(received.value, |send|)
    ensures received.Some? ==>
      forall r, s :: 0 <= r < |send| && 0 <= s < |send| ==> received.value[r][s] == send[s][r]
  {
    if CapacitiesFit(send, capacities) then Some(Transpose(send, |send|)) else None
  }

  /**
   * `torch.split(row, widths)`: cuts a row into consecutive fields of the
   * given widths; the widths must add up to the row's length.
   */
  function SplitRow<T>(row: seq<T>, widths: seq<nat>): (fields: Option<seq<seq<T>>>)
    decreases |widths|
    ensures fields.Some? <==> Sum(widths) == |row|
    ensures fields.Some? ==> Lengths(fields.value) == widths && Flatten(fields.value) == row
  {
    if widths == [] then
      (if row == [] then Some([]) else None)
    else
      var w := widths[|widths| - 1];
      if |row| < w then None
      else
        match SplitRow(row[..|row| - w], widths[..|widths| - 1])
        case None => None
        case Some(front) => Some(front + [row[|row| - w..]])
  }

  // ---------------------------------------------------------------------
  // Lemmas
  // ---------------------------------------------------------------------

  lemma FlattenSnoc<T>(xss: seq<seq<T>>, last: seq<T>)
    ensures Flatten(xss + [last]) == Flatten(xss) + last
  {
    assert (xss + [last])[..|xss|] == xss;
  }

  /** The length of a concatenation is the sum of the parts' lengths. */
  lemma {:induction false} FlattenLength<T>(xss: seq<seq<T>>)
    ensures |Flatten(xss)| == Sum(Lengths(xss))
  {
    if xss != [] {
      FlattenLength(xss[..|xss| - 1]);
      assert Lengths(xss)[..|xss| - 1] == Lengths(xss[..|xss| - 1]);
    }
  }

  /** A concatenation of empty parts is empty. */
  lemma {:induction false} FlattenAllEmpty<T>(xss: seq<seq<T>>)
    requires forall i :: 0 <= i < |xss| ==> xss[i] == []
    ensures Flatten(xss) == []
  {
    if xss != [] {
      FlattenAllEmpty(xss[..|xss| - 1]);
    }
  }

  /** A non-empty sequence is its front followed by its last entry. */
  lemma FrontLast<T>(s: seq<T>)
    requires s != []
    ensures s[..|s| - 1] + [s[|s| - 1]] == s
  {
    assert forall i :: 0 <= i < |s| ==> (s[..|s| - 1] + [s[|s| - 1]])[i] == s[i];
  }

  /** The entries of a non-empty sequence: its first entry and those of the rest. */
  lemma MultisetCons<T>(s: seq<T>)
    requires s != []
    ensures multiset(s) == multiset([s[0]]) + multiset(s[1..])
  {
    assert s == [s[0]] + s[1..];
  }

  /** Exactly one non-empty part `[x]`: the concatenation is `[x]`. */
  lemma {:induction false} FlattenSingle<T>(xss: seq<seq<T>>, d: nat, x: T)
    requires d < |xss| && xss[d] == [x]
    requires forall i :: 0 <= i < |xss| && i != d ==> xss[i] == []
    ensures Flatten(xss) == [x]
  {
    var front := xss[..|xss| - 1];
    if d == |xss| - 1 {
      FlattenAllEmpty(front);
    } else {
      FlattenSingle(front, d, x);
    }
  }

  /** Every element of a concatenation comes from one of its parts. */
  lemma {:induction false} FlattenMember<T>(xss: seq<seq<T>>, x: T) returns (j: nat)
    requires x in Flatten(xss)
    ensures j < |xss| && x in xss[j]
  {
    var front := xss[..|xss| - 1];
    if x in xss[|xss| - 1] {
      j := |xss| - 1;
    } else {
      j := FlattenMember(front, x);
    }
  }

  /** Every element of every part is in the concatenation. */
  lemma {:induction false} FlattenContains<T>(xss: seq<seq<T>>, j: nat, x: T)
    requires j < |xss| && x in xss[j]
    ensures x in Flatten(xss)
  {
    var n := |xss| - 1;
    if j < n {
      FlattenContains(xss[..n], j, x);
    }
  }

  lemma {:induction false} FlattenPairwiseMultiset<T>(a: seq<seq<T>>, b: seq<seq<T>>)
    requires |a| == |b|
    ensures multiset(Flatten(Pairwise(a, b))) == multiset(Flatten(a)) + multiset(Flatten(b))
  {
    if a != [] {
      var n := |a| - 1;
      var c := Pairwise(a, b);
      assert Flatten(c) == Flatten(c[..n]) + (a[n] + b[n]);
      assert c[..n] == Pairwise(a[..n], b[..n]);
      assert Flatten(a) == Flatten(a[..n]) + a[n];
      assert Flatten(b) == Flatten(b[..n]) + b[n];
      var fa, fb := multiset(Flatten(a[..n])), multiset(Flatten(b[..n]));
      assert multiset(Flatten(c[..n])) == fa + fb by {
        FlattenPairwiseMultiset(a[..n], b[..n]);
      }
      calc {
        multiset(Flatten(c));
        multiset(Flatten(c[..n])) + multiset(a[n] + b[n]);
        (fa + fb) + (multiset(a[n]) + multiset(b[n]));
        (fa + multiset(a[n])) + (fb + multiset(b[n]));
        multiset(Flatten(a)) + multiset(Flatten(b));
      }
    }
  }

  /** Parts with equal multisets concatenate to equal multisets. */
  lemma {:induction false} FlattenPointwiseMultiset<T>(a: seq<seq<T>>, b: seq<seq<T>>)
    requires |a| == |b|
    requires forall i :: 0 <= i < |a| ==> multiset(a[i]) == multiset(b[i])
    ensures multiset(Flatten(a)) == multiset(Flatten(b))
  {
    if a != [] {
      FlattenPointwiseMultiset(a[..|a| - 1], b[..|b| - 1]);
    }
  }

  /**
   * An all-to-all neither creates nor loses anything: concatenating what every
   * member receives gives the same multiset as concatenating what every member
   * sends.
   */
  lemma {:induction false} TransposeConservesMultiset<T>(m: seq<seq<seq<T>>>, w: nat)
    requires Rectangular(m, w)
    ensures multiset(Flatten(Concats(Transpose(m, w)))) == multiset(Flatten(Concats(m)))
  {
    if m == [] {
      TransposeOfNone(m, w);
    } else {
      var front := m[..|m| - 1];
      assert Rectangular(front, w);
      TransposeConservesMultiset(front, w);
      TransposeConservesStep(m, w);
    }
  }

  /** With no senders every member receives nothing. */
  lemma TransposeOfNone<T>(m: seq<seq<seq<T>>>, w: nat)
    requires m == []
    ensures Flatten(Concats(Transpose(m, w))) == []
  {
    var t := Transpose(m, w);
    forall r | 0 <= r < w ensures Concats(t)[r] == [] {
      FlattenAllEmpty(t[r]);
    }
    FlattenAllEmpty(Concats(t));
  }

  /** One more sender adds its parts to the received multiset and to the sent one alike. */
  lemma TransposeConservesStep<T>(m: seq<seq<seq<T>>>, w: nat)
    requires Rectangular(m, w) && m != []
    requires multiset(Flatten(Concats(Transpose(m[..|m| - 1], w)))) == multiset(Flatten(Concats(m[..|m| - 1])))
    ensures multiset(Flatten(Concats(Transpose(m, w)))) == multiset(Flatten(Concats(m)))
  {
    var n := |m| - 1;
    var front, last := m[..n], m[n];
    var received, before := Concats(Transpose(m, w)), Concats(Transpose(front, w));
    assert received == Pairwise(before, last) by {
      TransposeSnoc(m, w);
    }
    assert multiset(Flatten(received)) == multiset(Flatten(before)) + multiset(Flatten(last)) by {
      FlattenPairwiseMultiset(before, last);
    }
    assert Flatten(Concats(m)) == Flatten(Concats(front)) + Flatten(last) by {
      ConcatsSnoc(m);
      FlattenSnoc(Concats(front), Flatten(last));
    }
  }

  lemma ConcatsSnoc<T>(m: seq<seq<seq<T>>>)
    requires m != []
    ensures Concats(m) == Concats(m[..|m| - 1]) + [Flatten(m[|m| - 1])]
  {
    var n := |m| - 1;
    var c, c' := Concats(m), Concats(m[..n]) + [Flatten(m[n])];
    forall i | 0 <= i < |c| ensures c[i] == c'[i] {
      if i < n {
        assert m[..n][i] == m[i];
      }
    }
  }

  /** What every member receives from all senders is what it received from all but the last, then the last's part. */
  lemma TransposeSnoc<T>(m: seq<seq<seq<T>>>, w: nat)
    requires Rectangular(m, w) && m != []
    ensures Concats(Transpose(m, w)) == Pairwise(Concats(Transpose(m[..|m| - 1], w)), m[|m| - 1])
  {
    var n := |m| - 1;
    var t, t' := Transpose(m, w), Transpose(m[..n], w);
    forall r | 0 <= r < w ensures Flatten(t[r]) == Flatten(t'[r]) + m[n][r] {
      assert t[r] == t'[r] + [m[n][r]];
      FlattenSnoc(t'[r], m[n][r]);
    }
  }

  /** Splitting a concatenation by its parts' lengths gives back the parts. */
  lemma {:induction false} SplitFlatten<T>(parts: seq<seq<T>>)
    ensures SplitRow(Flatten(parts), Lengths(parts)) == Some(parts)
  {
    if parts != [] {
      var n := |parts| - 1;
      var row := Flatten(parts);
      SplitFlatten(parts[..n]);
      FlattenLength(parts[..n]);
      assert Lengths(parts)[..n] == Lengths(parts[..n]);
      assert row[..|row| - |parts[n]|] == Flatten(parts[..n]);
      assert row[|row| - |parts[n]|..] == parts[n];
      FrontLast(parts);
    }
  }

  /** Every entry kept by a mask is an entry of the input whose bit is set. */
  lemma {:induction false} MaskedMember<T>(xs: seq<T>, mask: seq<bool>, y: T) returns (i: nat)
    requires |xs| == |mask| && y in Masked(xs, mask)
    ensures i < |xs| && mask[i] && xs[i] == y
  {
    if mask[0] && y == xs[0] {
      i := 0;
    } else {
      var j := MaskedMember(xs[1..], mask[1..], y);
      i := j + 1;
    }
  }

  /** Every entry whose bit is set is kept by the mask. */
  lemma {:induction false} MaskedKeeps<T>(xs: seq<T>, mask: seq<bool>, i: nat)
    requires |xs| == |mask| && i < |xs| && mask[i]
    ensures xs[i] in Masked(xs, mask)
  {
    if i > 0 {
      MaskedKeeps(xs[1..], mask[1..], i - 1);
    }
  }

  /** Masking commutes with applying a function to every entry. */
  lemma {:induction false} MaskedMap<T, U>(f: T -> U, xs: seq<T>, mask: seq<bool>)
    requires |xs| == |mask|
    ensures Masked(Map(f, xs), mask) == Map(f, Masked(xs, mask))
  {
    if xs != [] {
      MaskedMap(f, xs[1..], mask[1..]);
      assert Map(f, xs)[1..] == Map(f, xs[1..]);
    }
  }

  /** Masking two aligned columns separately keeps them aligned. */
  lemma {:induction false} MaskedZip<A, B>(a: seq<A>, b: seq<B>, mask: seq<bool>)
    requires |a| == |b| == |mask|
    ensures Masked(Zip(a, b), mask) == Zip(Masked(a, mask), Masked(b, mask))
  {
    if a != [] {
      MaskedZip(a[1..], b[1..], mask[1..]);
      assert Zip(a, b)[1..] == Zip(a[1..], b[1..]);
    }
  }

  lemma ZipAppend<A, B>(a1: seq<A>, a2: seq<A>, b1: seq<B>, b2: seq<B>)
    requires |a1| == |b1| && |a2| == |b2|
    ensures Zip(a1 + a2, b1 + b2) == Zip(a1, b1) + Zip(a2, b2)
  {
  }

  /** Concatenating aligned parts pairwise keeps them aligned. */
  lemma {:induction false} FlattenZip<A, B>(as_: seq<seq<A>>, bs: seq<seq<B>>)
    requires |as_| == |bs| && forall i :: 0 <= i < |as_| ==> |as_[i]| == |bs[i]|
    ensures |Flatten(as_)| == |Flatten(bs)|
    ensures Flatten(ZipCols(as_, bs)) == Zip(Flatten(as_), Flatten(bs))
  {
    if as_ != [] {
      var n := |as_| - 1;
      var fa, fb := Flatten(as_[..n]), Flatten(bs[..n]);
      FlattenZip(as_[..n], bs[..n]);
      assert ZipCols(as_, bs)[..n] == ZipCols(as_[..n], bs[..n]);
      ZipAppend(fa, as_[n], fb, bs[n]);
    }
  }

  /** Concatenating parts mapped entry by entry maps the concatenation. */
  lemma {:induction false} FlattenMap<T, U>(f: T -> U, xss: seq<seq<T>>)
    ensures Flatten(seq(|xss|, i requires 0 <= i < |xss| => Map(f, xss[i]))) == Map(f, Flatten(xss))
  {
    var ms := seq(|xss|, i requires 0 <= i < |xss| => Map(f, xss[i]));
    if xss != [] {
      var n := |xss| - 1;
      FlattenMap(f, xss[..n]);
      assert ms[..n] == seq(n, i requires 0 <= i < n => Map(f, xss[..n][i]));
      assert Map(f, Flatten(xss[..n]) + xss[n]) == Map(f, Flatten(xss[..n])) + Map(f, xss[n]);
    }
  }
}
