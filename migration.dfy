/**
 * One redistribution round over the whole process group.
 *
 * Every member s holds a plan `dests[s]`: one destination rank per local row
 * (the vector `torch.randint` draws; here an input). A member counts its rows
 * per destination (`bincount`), the counts are exchanged, and then every
 * column is cut by destination (`local_tensor[destination == r]`), exchanged
 * all-to-all, and what member r receives is concatenated in source-rank
 * order to form r's new column.
 */
module Migration {
  import opened Collective

  /** Every destination names a member: `torch.randint(0, W, ...)`. */
  predicate IsPlan(dests: seq<seq<nat>>)
  {
    forall s, i :: 0 <= s < |dests| && 0 <= i < |dests[s]| ==> dests[s][i] < |dests|
  }

  /** One local column per member, each as long as that member's plan. */
  predicate Fits<T>(cols: seq<seq<T>>, dests: seq<seq<nat>>)
  {
    |cols| == |dests| && forall s :: 0 <= s < |cols| ==> |cols[s]| == |dests[s]|
  }

  /** `destination == r` */
  function DestMask(dest: seq<nat>, r: nat): (mask: seq<bool>)
    ensures |mask| == |dest|
  {
    seq(|dest|, i requires 0 <= i < |dest| => dest[i] == r)
  }

  /** `local_tensor[destination == r]`: the rows bound for member r, in order. */
  function Bucket<T>(col: seq<T>, dest: seq<nat>, r: nat): seq<T>
    requires |col| == |dest|
  {
    Masked(col, DestMask(dest, r))
  }

  /** `torch.bincount(destination, minlength=W)`. */
  function Bincount(dest: seq<nat>, w: nat): (counts: seq<nat>)
    ensures |counts| == w
  {
    seq(w, r requires 0 <= r < w => CountTrue(DestMask(dest, r)))
  }

  /** The `input_tensor_list` one member builds: one bucket per destination. */
  function SendBuffers<T>(col: seq<T>, dest: seq<nat>, w: nat): (send: seq<seq<T>>)
    requires |col| == |dest|
    ensures |send| == w
  {
    seq(w, r requires 0 <= r < w => Bucket(col, dest, r))
  }

  /** The input lists of all members. */
  function Sends<T>(cols: seq<seq<T>>, dests: seq<seq<nat>>): (m: seq<seq<seq<T>>>)
    requires Fits(cols, dests)
    ensures |m| == |dests| && Rectangular(m, |dests|)
  {
    seq(|dests|, s requires 0 <= s < |dests| => SendBuffers(cols[s], dests[s], |dests|))
  }

  /**
   * `number_of_gaussians_to_receive` of every member after the count
   * exchange: entry [r][s] is what member s announced to member r.
   */
  function CountExchange(dests: seq<seq<nat>>): (received: seq<seq<nat>>)
    ensures |received| == |dests| && Rectangular(received, |dests|)
  {
    ExchangeSizes(seq(|dests|, s requires 0 <= s < |dests| => Bincount(dests[s], |dests|)))
  }

  /** The new local column of every member after `all2all_gaussian_state`. */
  function Migrate<T>(cols: seq<seq<T>>, dests: seq<seq<nat>>): (news: seq<seq<T>>)
    requires Fits(cols, dests)
    ensures |news| == |dests|
  {
    Concats(Transpose(Sends(cols, dests), |dests|))
  }

  /** Where a row came from: the member that held it and its local index there. */
  datatype Origin = Origin(rank: nat, index: nat)

  /** Every row labelled with its own origin. */
  function Tags(dests: seq<seq<nat>>): (tags: seq<seq<Origin>>)
    ensures Fits(tags, dests)
  {
    seq(|dests|, s requires 0 <= s < |dests| =>
      seq(|dests[s]|, i requires 0 <= i < |dests[s]| => Origin(s, i)))
  }

  /** The origin of every row of every member after a round under `dests`. */
  function Origins(dests: seq<seq<nat>>): seq<seq<Origin>>
  {
    Migrate(Tags(dests), dests)
  }

  /** Source rank first, then local index. */
  predicate Before(a: Origin, b: Origin)
  {
    a.rank < b.rank || (a.rank == b.rank && a.index < b.index)
  }

  predicate Ascending(os: seq<Origin>)
  {
    forall i, j :: 0 <= i < j < |os| ==> Before(os[i], os[j])
  }

  /**
   * `all2all_gaussian_state`, run by every member in lock-step: each member
   * builds its input list bucket by bucket, the receive buffers are pre-sized
   * by `received` (the counts learned in the count exchange), the payloads
   * are exchanged, and each member concatenates what it received. It fails
   * exactly when the pre-sized buffers disagree with the counts of the plan.
   */
  method All2AllGaussianState<T>(locals: seq<seq<T>>, dests: seq<seq<nat>>, received: seq<seq<nat>>)
    returns (news: Option<seq<seq<T>>>)
    requires Fits(locals, dests)
    requires |received| == |dests| && Rectangular(received, |dests|)
    ensures news.Some? <==> received == CountExchange(dests)
    ensures news.Some? ==> news.value == Migrate(locals, dests)
  {
    var w := |dests|;
    var inputs: seq<seq<seq<T>>> := [];
    for s := 0 to w
      invariant |inputs| == s
      invariant forall q :: 0 <= q < s ==> inputs[q] == SendBuffers(locals[q], dests[q], w)
    {
      var inputList := BuildInputList(locals[s], dests[s], w);
      inputs := inputs + [inputList];
    }
    assert inputs == Sends(locals, dests);
    CapacitiesFitIff(locals, dests, received);
    var exchanged := ExchangeVariable(inputs, received);
    if exchanged.None? {
      return None;
    }
    var result: seq<seq<T>> := [];
    for r := 0 to w
      invariant |result| == r
      invariant forall q :: 0 <= q < r ==> result[q] == Flatten(exchanged.value[q])
    {
      result := result + [Flatten(exchanged.value[r])];
    }
    assert exchanged.value == Transpose(inputs, w);
    news := Some(result);
  }

  /** The input list of one member: its rows bucketed by destination, bucket by bucket. */
  method BuildInputList<T>(col: seq<T>, dest: seq<nat>, w: nat) returns (inputList: seq<seq<T>>)
    requires |col| == |dest|
    ensures inputList == SendBuffers(col, dest, w)
  {
    inputList := [];
    for i := 0 to w
      invariant |inputList| == i
      invariant forall j :: 0 <= j < i ==> inputList[j] == Bucket(col, dest, j)
    {
      inputList := inputList + [Bucket(col, dest, i)];
    }
  }

  /**
   * `all2all_gaussian_state` as the rebalancing round calls it, with the
   * buffers pre-sized by the count exchange of the same plan: it always
   * succeeds.
   */
  method ExchangeRows<T>(locals: seq<seq<T>>, dests: seq<seq<nat>>, received: seq<seq<nat>>)
    returns (news: seq<seq<T>>)
    requires Fits(locals, dests) && received == CountExchange(dests)
    ensures news == Migrate(locals, dests)
  {
    var exchanged := All2AllGaussianState(locals, dests, received);
    news := exchanged.value;
  }

  // ---------------------------------------------------------------------
  // Counting
  // ---------------------------------------------------------------------

  lemma DestMaskTail(dest: seq<nat>, r: nat)
    requires dest != []
    ensures DestMask(dest, r)[0] == (dest[0] == r)
    ensures DestMask(dest, r)[1..] == DestMask(dest[1..], r)
  {
  }

  /** The count for destination r is the number of occurrences of r in the plan. */
  lemma {:induction false} CountIsOccurrences(dest: seq<nat>, r: nat)
    ensures CountTrue(DestMask(dest, r)) == multiset(dest)[r]
  {
    if dest != [] {
      DestMaskTail(dest, r);
      CountIsOccurrences(dest[1..], r);
      assert dest == [dest[0]] + dest[1..];
    }
  }

  /** Each send buffer is as long as the count announced for its destination. */
  lemma BucketLength<T>(col: seq<T>, dest: seq<nat>, r: nat)
    requires |col| == |dest|
    ensures |Bucket(col, dest, r)| == multiset(dest)[r]
  {
    CountIsOccurrences(dest, r);
  }

  /**
   * After the count exchange, member r holds for source s the number of rows
   * of s whose destination is r.
   */
  lemma CountExchangeReceived(dests: seq<seq<nat>>, r: nat, s: nat)
    requires r < |dests| && s < |dests|
    ensures CountExchange(dests)[r][s] == multiset(dests[s])[r]
  {
    CountIsOccurrences(dests[s], r);
  }

  /** The pre-sized receive buffers fit the payloads exactly when they hold the exchanged counts. */
  lemma CapacitiesFitIff<T>(locals: seq<seq<T>>, dests: seq<seq<nat>>, received: seq<seq<nat>>)
    requires Fits(locals, dests)
    requires |received| == |dests| && Rectangular(received, |dests|)
    ensures CapacitiesFit(Sends(locals, dests), received) <==> received == CountExchange(dests)
  {
    var w := |dests|;
    var send, counts := Sends(locals, dests), CountExchange(dests);
    assert forall r, s :: 0 <= r < w && 0 <= s < w ==> |send[s][r]| == counts[r][s];
    if CapacitiesFit(send, received) {
      forall r | 0 <= r < w ensures received[r] == counts[r] {
        forall s | 0 <= s < w ensures received[r][s] == counts[r][s] {
          assert |send[s][r]| == received[r][s];
        }
      }
    }
  }

  /** The buckets of a single row: the row in its destination's bucket, the others empty. */
  function HeadBuffers<T>(x: T, d: nat, w: nat): (send: seq<seq<T>>)
    ensures |send| == w
  {
    seq(w, r requires 0 <= r < w => if d == r then [x] else [])
  }

  /** The buckets of a single row hold just that row. */
  lemma FlattenHead<T>(x: T, d: nat, w: nat)
    requires d < w
    ensures Flatten(HeadBuffers(x, d, w)) == [x]
  {
    FlattenSingle(HeadBuffers(x, d, w), d, x);
  }

  /** Bucketing a column is bucketing its first row, then the rest, bucket by bucket. */
  lemma SendBuffersCons<T>(col: seq<T>, dest: seq<nat>, w: nat)
    requires |col| == |dest| && col != []
    ensures SendBuffers(col, dest, w)
            == Pairwise(HeadBuffers(col[0], dest[0], w), SendBuffers(col[1..], dest[1..], w))
  {
    var send, head, rest := SendBuffers(col, dest, w), HeadBuffers(col[0], dest[0], w), SendBuffers(col[1..], dest[1..], w);
    forall r | 0 <= r < w ensures send[r] == head[r] + rest[r] {
      DestMaskTail(dest, r);
    }
  }

  /** The rows of a bucketed column: those of its first row's buckets and those of the rest's. */
  lemma SendBuffersConsMultiset<T>(col: seq<T>, dest: seq<nat>, w: nat)
    requires |col| == |dest| && col != []
    ensures multiset(Flatten(SendBuffers(col, dest, w)))
            == multiset(Flatten(HeadBuffers(col[0], dest[0], w))) + multiset(Flatten(SendBuffers(col[1..], dest[1..], w)))
  {
    SendBuffersCons(col, dest, w);
    FlattenPairwiseMultiset(HeadBuffers(col[0], dest[0], w), SendBuffers(col[1..], dest[1..], w));
  }

  /** Splitting a column by destination keeps every row exactly once. */
  lemma {:induction false} BucketsPartition<T>(col: seq<T>, dest: seq<nat>, w: nat)
    requires |col| == |dest|
    requires forall i :: 0 <= i < |dest| ==> dest[i] < w
    ensures multiset(Flatten(SendBuffers(col, dest, w))) == multiset(col)
  {
    if col == [] {
      FlattenAllEmpty(SendBuffers(col, dest, w));
    } else {
      BucketsPartition(col[1..], dest[1..], w);
      BucketsPartitionStep(col, dest, w);
    }
  }

  /** The step of `BucketsPartition`: the first row joins the rows of the rest. */
  lemma BucketsPartitionStep<T>(col: seq<T>, dest: seq<nat>, w: nat)
    requires |col| == |dest| && col != [] && dest[0] < w
    requires multiset(Flatten(SendBuffers(col[1..], dest[1..], w))) == multiset(col[1..])
    ensures multiset(Flatten(SendBuffers(col, dest, w))) == multiset(col)
  {
    SendBuffersConsMultiset(col, dest, w);
    FlattenHead(col[0], dest[0], w);
    MultisetCons(col);
  }

  /** The per-destination counts of one member add up to its row count. */
  lemma BincountSum(dest: seq<nat>, w: nat)
    requires forall i :: 0 <= i < |dest| ==> dest[i] < w
    ensures Sum(Bincount(dest, w)) == |dest|
  {
    var send := SendBuffers(dest, dest, w);
    BucketsPartition(dest, dest, w);
    assert |multiset(Flatten(send))| == |multiset(dest)|;
    FlattenLength(send);
    assert Lengths(send) == Bincount(dest, w);
  }

  // ---------------------------------------------------------------------
  // Sizes after a round
  // ---------------------------------------------------------------------

  lemma ReceivedRow<T>(cols: seq<seq<T>>, dests: seq<seq<nat>>, r: nat)
    requires Fits(cols, dests) && r < |dests|
    ensures Transpose(Sends(cols, dests), |dests|)[r]
            == seq(|dests|, s requires 0 <= s < |dests| => Bucket(cols[s], dests[s], r))
    ensures Lengths(Transpose(Sends(cols, dests), |dests|)[r]) == CountExchange(dests)[r]
  {
  }

  /**
   * Member r ends with as many rows as the counts it received add up to,
   * whatever the column; a member that starts empty ends with exactly the rows
   * the others route to it.
   */
  lemma MigratedLength<T>(cols: seq<seq<T>>, dests: seq<seq<nat>>, r: nat)
    requires Fits(cols, dests) && r < |dests|
    ensures |Migrate(cols, dests)[r]| == Sum(CountExchange(dests)[r])
  {
    ReceivedRow(cols, dests, r);
    FlattenLength(Transpose(Sends(cols, dests), |dests|)[r]);
  }

  /**
   * Cutting member r's new column at the received counts gives back, in
   * source-rank order, exactly what each source sent; an empty bucket still
   * occupies its source's position.
   */
  lemma MigratedSplitsBySource<T>(cols: seq<seq<T>>, dests: seq<seq<nat>>, r: nat)
    requires Fits(cols, dests) && r < |dests|
    ensures SplitRow(Migrate(cols, dests)[r], CountExchange(dests)[r])
            == Some(seq(|dests|, s requires 0 <= s < |dests| => Bucket(cols[s], dests[s], r)))
  {
    ReceivedRow(cols, dests, r);
    SplitFlatten(Transpose(Sends(cols, dests), |dests|)[r]);
  }

  // ---------------------------------------------------------------------
  // Conservation
  // ---------------------------------------------------------------------

  /** A round keeps the multiset of all rows of the process group. */
  lemma MigrateConserves<T>(cols: seq<seq<T>>, dests: seq<seq<nat>>)
    requires Fits(cols, dests) && IsPlan(dests)
    ensures multiset(Flatten(Migrate(cols, dests))) == multiset(Flatten(cols))
  {
    var w := |dests|;
    var send := Sends(cols, dests);
    TransposeConservesMultiset(send, w);
    forall s | 0 <= s < w ensures multiset(Concats(send)[s]) == multiset(cols[s]) {
      BucketsPartition(cols[s], dests[s], w);
    }
    FlattenPointwiseMultiset(Concats(send), cols);
  }

  /** A round keeps the total number of rows of the process group. */
  lemma MigrateConservesCount<T>(cols: seq<seq<T>>, dests: seq<seq<nat>>)
    requires Fits(cols, dests) && IsPlan(dests)
    ensures Sum(Lengths(Migrate(cols, dests))) == Sum(Lengths(cols))
  {
    MigrateConserves(cols, dests);
    assert |multiset(Flatten(Migrate(cols, dests)))| == |multiset(Flatten(cols))|;
    FlattenLength(Migrate(cols, dests));
    FlattenLength(cols);
  }

  lemma {:induction false} TagColumnCount(s: nat, n: nat, o: Origin)
    ensures multiset(seq(n, i requires 0 <= i < n => Origin(s, i)))[o]
            == if o.rank == s && o.index < n then 1 else 0
  {
    if n > 0 {
      var col := seq(n, i requires 0 <= i < n => Origin(s, i));
      TagColumnCount(s, n - 1, o);
      assert col == seq(n - 1, i requires 0 <= i < n - 1 => Origin(s, i)) + [Origin(s, n - 1)];
    }
  }

  lemma {:induction false} TagPrefixCount(dests: seq<seq<nat>>, k: nat, o: Origin)
    requires k <= |dests|
    ensures multiset(Flatten(Tags(dests)[..k]))[o]
            == if o.rank < k && o.index < |dests[o.rank]| then 1 else 0
  {
    if k > 0 {
      var tags := Tags(dests);
      TagPrefixCount(dests, k - 1, o);
      assert tags[..k] == tags[..k - 1] + [tags[k - 1]];
      FlattenSnoc(tags[..k - 1], tags[k - 1]);
      TagColumnCount(k - 1, |dests[k - 1]|, o);
    }
  }

  /**
   * No row is lost or duplicated: after a round, every origin (source rank,
   * source index) of the old shards occurs exactly once across the group, and
   * nothing else does, including rows of members that started empty.
   */
  lemma OriginsExactlyOnce(dests: seq<seq<nat>>, o: Origin)
    requires IsPlan(dests)
    ensures multiset(Flatten(Origins(dests)))[o]
            == if o.rank < |dests| && o.index < |dests[o.rank]| then 1 else 0
  {
    MigrateConserves(Tags(dests), dests);
    TagPrefixCount(dests, |dests|, o);
    assert Tags(dests)[..|dests|] == Tags(dests);
  }

  // ---------------------------------------------------------------------
  // Where every row comes from
  // ---------------------------------------------------------------------

  /** Every row member r receives is a row of some source whose destination is r. */
  lemma MigrateMember<T>(cols: seq<seq<T>>, dests: seq<seq<nat>>, r: nat, x: T) returns (s: nat, i: nat)
    requires Fits(cols, dests) && r < |dests|
    requires x in Migrate(cols, dests)[r]
    ensures s < |dests| && i < |dests[s]| && cols[s][i] == x && dests[s][i] == r
  {
    ReceivedRow(cols, dests, r);
    var row := Transpose(Sends(cols, dests), |dests|)[r];
    s := FlattenMember(row, x);
    i := MaskedMember(cols[s], DestMask(dests[s], r), x);
  }

  /** Every row member r holds after a round was routed to r by its plan. */
  lemma OriginsRouted(dests: seq<seq<nat>>, r: nat, k: nat)
    requires r < |dests| && k < |Origins(dests)[r]|
    ensures var o := Origins(dests)[r][k];
      o.rank < |dests| && o.index < |dests[o.rank]| && dests[o.rank][o.index] == r
  {
    var s, i := MigrateMember(Tags(dests), dests, r, Origins(dests)[r][k]);
  }

  /** Migrating two aligned columns separately keeps them aligned. */
  lemma MigrateZip<A, B>(c1: seq<seq<A>>, c2: seq<seq<B>>, dests: seq<seq<nat>>, r: nat)
    requires Fits(c1, dests) && Fits(c2, dests) && r < |dests|
    ensures |Migrate(c1, dests)[r]| == |Migrate(c2, dests)[r]|
    ensures Migrate(ZipCols(c1, c2), dests)[r] == Zip(Migrate(c1, dests)[r], Migrate(c2, dests)[r])
  {
    var w := |dests|;
    var z := ZipCols(c1, c2);
    assert Fits(z, dests);
    ReceivedRow(c1, dests, r);
    ReceivedRow(c2, dests, r);
    ReceivedRow(z, dests, r);
    var a := Transpose(Sends(c1, dests), w)[r];
    var b := Transpose(Sends(c2, dests), w)[r];
    forall s | 0 <= s < w
      ensures Transpose(Sends(z, dests), w)[r][s] == Zip(a[s], b[s])
      ensures |a[s]| == |b[s]|
    {
      MaskedZip(c1[s], c2[s], DestMask(dests[s], r));
    }
    assert Transpose(Sends(z, dests), w)[r] == ZipCols(a, b);
    FlattenZip(a, b);
  }

  /**
   * Row coherence: after a round, row k of member r of ANY column migrated
   * with the plan is the row of that column at the origin `Origins` names.
   * Parameters, optimizer moments and other properties migrated with one plan
   * therefore describe the same particle in every row.
   */
  lemma MigratedRowOrigin<T>(cols: seq<seq<T>>, dests: seq<seq<nat>>, r: nat, k: nat)
    requires Fits(cols, dests) && r < |dests|
    ensures |Migrate(cols, dests)[r]| == |Origins(dests)[r]|
    ensures k < |Origins(dests)[r]| ==>
      var o := Origins(dests)[r][k];
      o.rank < |dests| && o.index < |cols[o.rank]| && Migrate(cols, dests)[r][k] == cols[o.rank][o.index]
  {
    var tags := Tags(dests);
    MigrateZip(cols, tags, dests, r);
    if k < |Origins(dests)[r]| {
      var z := ZipCols(cols, tags);
      var zr := Migrate(z, dests)[r];
      assert zr[k] in zr;
      var s, i := MigrateMember(z, dests, r, zr[k]);
    }
  }

  /**
   * Every column migrated with the plan ends up with the same shape: member r
   * holds one row per origin routed to it.
   */
  lemma MigratedShape<T>(cols: seq<seq<T>>, dests: seq<seq<nat>>)
    requires Fits(cols, dests)
    ensures Lengths(Migrate(cols, dests)) == Lengths(Origins(dests))
  {
    var m, o := Migrate(cols, dests), Origins(dests);
    forall r | 0 <= r < |dests| ensures Lengths(m)[r] == Lengths(o)[r] {
      MigratedRowOrigin(cols, dests, r, 0);
    }
  }

  // ---------------------------------------------------------------------
  // Order
  // ---------------------------------------------------------------------

  lemma AscendingAppend(a: seq<Origin>, b: seq<Origin>)
    requires Ascending(a) && Ascending(b)
    requires forall x, y :: x in a && y in b ==> Before(x, y)
    ensures Ascending(a + b)
  {
    var c := a + b;
    forall i, j | 0 <= i < j < |c| ensures Before(c[i], c[j]) {
      if j < |a| {
      } else if i >= |a| {
        assert c[i] == b[i - |a|] && c[j] == b[j - |a|];
      } else {
        assert c[i] in a && c[j] in b;
      }
    }
  }

  /** A mask keeps an ascending column ascending. */
  lemma {:induction false} MaskedAscending(xs: seq<Origin>, mask: seq<bool>)
    requires |xs| == |mask| && Ascending(xs)
    ensures Ascending(Masked(xs, mask))
  {
    if xs != [] {
      var rest := Masked(xs[1..], mask[1..]);
      MaskedAscending(xs[1..], mask[1..]);
      if mask[0] {
        forall x, y | x in [xs[0]] && y in rest ensures Before(x, y) {
          var j := MaskedMember(xs[1..], mask[1..], y);
          assert y == xs[j + 1];
        }
        AscendingAppend([xs[0]], rest);
      } else {
        assert Masked(xs, mask) == rest;
      }
    }
  }

  /** Buckets from sources 0, 1, ... in turn, each ascending, concatenate ascending. */
  lemma {:induction false} FlattenAscending(bs: seq<seq<Origin>>)
    requires forall s :: 0 <= s < |bs| ==> Ascending(bs[s])
    requires forall s, x :: 0 <= s < |bs| && x in bs[s] ==> x.rank == s
    ensures Ascending(Flatten(bs))
    ensures forall x :: x in Flatten(bs) ==> x.rank < |bs|
  {
    if bs != [] {
      var n := |bs| - 1;
      var front := bs[..n];
      FlattenAscending(front);
      forall x, y | x in Flatten(front) && y in bs[n] ensures Before(x, y) {
      }
      AscendingAppend(Flatten(front), bs[n]);
    }
  }

  /**
   * Member r's new rows are ordered by source rank and, within one source, by
   * their old local index: the buckets are concatenated in rank order and
   * each bucket keeps its relative order.
   */
  lemma OriginsAscending(dests: seq<seq<nat>>, r: nat)
    requires r < |dests|
    ensures Ascending(Origins(dests)[r])
  {
    var w := |dests|;
    var tags := Tags(dests);
    ReceivedRow(tags, dests, r);
    var row: seq<seq<Origin>> := Transpose(Sends(tags, dests), w)[r];
    forall s | 0 <= s < w
      ensures Ascending(row[s])
      ensures forall x :: x in row[s] ==> x.rank == s
    {
      MaskedAscending(tags[s], DestMask(dests[s], r));
      forall x | x in row[s] ensures x.rank == s {
        var i := MaskedMember(tags[s], DestMask(dests[s], r), x);
      }
    }
    FlattenAscending(row);
  }

  // ---------------------------------------------------------------------
  // A concrete round
  // ---------------------------------------------------------------------

  /** Two members holding 6 and 4 rows; even local indices go to member 0, odd ones to member 1. */
  const EvenOdd: seq<seq<nat>> := [[0, 1, 0, 1, 0, 1], [0, 1, 0, 1]]

  /** Under `EvenOdd` each member receives 3 rows from member 0 and 2 from member 1. */
  lemma EvenOddCounts()
    ensures CountExchange(EvenOdd) == [[3, 2], [3, 2]]
  {
    var d := EvenOdd;
    var c := CountExchange(d);
    assert c[0][0] == 3 by { EvenOddOccurrences(); CountExchangeReceived(d, 0, 0); }
    assert c[0][1] == 2 by { EvenOddOccurrences(); CountExchangeReceived(d, 0, 1); }
    assert c[1][0] == 3 by { EvenOddOccurrences(); CountExchangeReceived(d, 1, 0); }
    assert c[1][1] == 2 by { EvenOddOccurrences(); CountExchangeReceived(d, 1, 1); }
    assert c[0] == [3, 2] && c[1] == [3, 2];
  }

  lemma EvenOddOccurrences()
    ensures multiset(EvenOdd[0])[0] == 3 && multiset(EvenOdd[0])[1] == 3
    ensures multiset(EvenOdd[1])[0] == 2 && multiset(EvenOdd[1])[1] == 2
  {
    var pair: seq<nat> := [0, 1];
    assert multiset(pair) == multiset{0, 1};
    assert EvenOdd[0] == pair + pair + pair;
    assert EvenOdd[1] == pair + pair;
  }

  /** Under `EvenOdd` each member ends with 3 + 2 = 5 rows, whatever the column. */
  lemma EvenOddRound<T>(cols: seq<seq<T>>)
    requires |cols| == 2 && |cols[0]| == 6 && |cols[1]| == 4
    ensures |Migrate(cols, EvenOdd)[0]| == 5 && |Migrate(cols, EvenOdd)[1]| == 5
  {
    EvenOddCounts();
    MigratedLength(cols, EvenOdd, 0);
    MigratedLength(cols, EvenOdd, 1);
    assert Sum([3, 2]) == 5;
  }
}
