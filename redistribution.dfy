/**
 * The rebalancing round over the property store and the optimizers of every
 * member: `optimizer_all2all`, `random_redistribute`, `redistribute` and
 * `after_training_step`, run in lock-step by all members.
 *
 * All members hold the same property names and build their optimizers
 * alike, so the model keeps every property and every param group once for
 * the whole process group, with one column per member (`Shards`, indexed by
 * rank). The optimizers of a member are flattened into one sequence of param
 * groups, in iteration order. The optimizer state stored for a group's single
 * param is kept inside the group: deleting the entry under the old param and
 * re-inserting it under the new one then amounts to keeping it with the group.
 */
module Redistribution {
  import opened Collective
  import opened Migration
  import opened Gating

  /** One particle's entry of a property tensor, its trailing dimensions flattened. */
  type Row = seq<real>

  /** One member's tensor: one row per local particle. */
  type Column = seq<Row>

  /** A tensor on every member, by rank. */
  type Shards = seq<Column>

  /**
   * The Adam state of one param: both moments, one row per particle, and
   * whatever else the state holds (the step count), on every member.
   */
  datatype Moments = Moments(expAvg: Shards, expAvgSq: Shards, steps: seq<int>)

  /** One optimizer param group: its name, its params and the state stored for its param. */
  datatype ParamGroup = ParamGroup(name: string, params: seq<Shards>, state: Option<Moments>)

  /** Every group holds exactly one param, as the group loop asserts. */
  predicate SingleParam(groups: seq<ParamGroup>)
  {
    forall gi :: 0 <= gi < |groups| ==> |groups[gi].params| == 1
  }

  /** Every tensor of the group has, on member r, sizes[r] rows. */
  predicate GroupShaped(g: ParamGroup, sizes: seq<nat>)
  {
    (forall j :: 0 <= j < |g.params| ==> Lengths(g.params[j]) == sizes) &&
    (g.state.Some? ==> Lengths(g.state.value.expAvg) == sizes && Lengths(g.state.value.expAvgSq) == sizes)
  }

  /** Every tensor of every group has, on member r, sizes[r] rows. */
  predicate GroupsShaped(groups: seq<ParamGroup>, sizes: seq<nat>)
  {
    forall gi :: 0 <= gi < |groups| ==> GroupShaped(groups[gi], sizes)
  }

  /** Every property has, on member r, sizes[r] rows. */
  predicate PropsShaped(props: map<string, Shards>, sizes: seq<nat>)
  {
    forall name :: name in props ==> Lengths(props[name]) == sizes
  }

  /** A tensor sized like the plan is one a round can migrate. */
  lemma ShapedFits(c: Shards, dests: seq<seq<nat>>)
    requires Lengths(c) == Lengths(dests)
    ensures Fits(c, dests)
  {
    assert |c| == |Lengths(c)|;
    forall s | 0 <= s < |c| ensures |c[s]| == |dests[s]| {
      assert Lengths(c)[s] == Lengths(dests)[s];
    }
  }

  /** What a round under `dests` needs of one group. */
  predicate GroupReady(g: ParamGroup, dests: seq<seq<nat>>)
  {
    |g.params| == 1 && Fits(g.params[0], dests) &&
    (g.state.Some? ==> Fits(g.state.value.expAvg, dests) && Fits(g.state.value.expAvgSq, dests))
  }

  /** Groups of one param each, sized like the plan, are ready for a round. */
  lemma ShapedReady(groups: seq<ParamGroup>, dests: seq<seq<nat>>)
    requires SingleParam(groups) && GroupsShaped(groups, Lengths(dests))
    ensures forall gi :: 0 <= gi < |groups| ==> GroupReady(groups[gi], dests)
  {
    forall gi | 0 <= gi < |groups| ensures GroupReady(groups[gi], dests) {
      var g := groups[gi];
      ShapedFits(g.params[0], dests);
      if g.state.Some? {
        ShapedFits(g.state.value.expAvg, dests);
        ShapedFits(g.state.value.expAvgSq, dests);
      }
    }
  }

  /** Properties sized like the plan are ready for a round. */
  lemma PropsReady(props: map<string, Shards>, dests: seq<seq<nat>>)
    requires PropsShaped(props, Lengths(dests))
    ensures forall name :: name in props ==> Fits(props[name], dests)
  {
    forall name | name in props ensures Fits(props[name], dests) {
      ShapedFits(props[name], dests);
    }
  }

  /**
   * One group after its pass of the group loop: the param migrated and, when
   * the group has state, both moments migrated with the same plan; the rest
   * of the state is kept.
   */
  function MigratedGroup(g: ParamGroup, dests: seq<seq<nat>>): (g': ParamGroup)
    requires GroupReady(g, dests)
    ensures g'.name == g.name && |g'.params| == 1 && g'.state.Some? == g.state.Some?
  {
    var param := Migrate(g.params[0], dests);
    if g.state.Some? then
      var st := g.state.value;
      ParamGroup(g.name, [param],
                 Some(st.(expAvg := Migrate(st.expAvg, dests), expAvgSq := Migrate(st.expAvgSq, dests))))
    else
      ParamGroup(g.name, [param], None)
  }

  /** The param groups after the round. */
  function NewGroups(groups: seq<ParamGroup>, dests: seq<seq<nat>>): (ng: seq<ParamGroup>)
    requires forall gi :: 0 <= gi < |groups| ==> GroupReady(groups[gi], dests)
    ensures |ng| == |groups| && SingleParam(ng)
    ensures forall gi :: 0 <= gi < |groups| ==> ng[gi].name == groups[gi].name
  {
    seq(|groups|, gi requires 0 <= gi < |groups| => MigratedGroup(groups[gi], dests))
  }

  /** The last group called `name`, if any. */
  function LastNamed(groups: seq<ParamGroup>, name: string): (i: Option<nat>)
    ensures i.Some? ==>
      i.value < |groups| && groups[i.value].name == name &&
      forall j :: i.value < j < |groups| ==> groups[j].name != name
    ensures i.None? ==> forall j :: 0 <= j < |groups| ==> groups[j].name != name
  {
    if groups == [] then None
    else if groups[|groups| - 1].name == name then Some(|groups| - 1)
    else LastNamed(groups[..|groups| - 1], name)
  }

  /**
   * Recording every group's param under the group's name, in order: one
   * entry per group name, holding the param of the last group of that name.
   */
  function GroupTensors(groups: seq<ParamGroup>): (m: map<string, Shards>)
    requires SingleParam(groups)
    ensures forall name :: name in m <==> LastNamed(groups, name).Some?
    ensures forall name :: name in m ==> m[name] == groups[LastNamed(groups, name).value].params[0]
  {
    if groups == [] then map[]
    else
      var last := groups[|groups| - 1];
      GroupTensors(groups[..|groups| - 1])[last.name := last.params[0]]
  }

  /**
   * The property store after the round: every group name mapped to its
   * group's new param, and every other property migrated on its own.
   */
  function NewProperties(props: map<string, Shards>, groups: seq<ParamGroup>,
                         dests: seq<seq<nat>>): map<string, Shards>
    requires forall name :: name in props ==> Fits(props[name], dests)
    requires forall gi :: 0 <= gi < |groups| ==> GroupReady(groups[gi], dests)
  {
    var gt := GroupTensors(NewGroups(groups, dests));
    map name | name in props.Keys + gt.Keys ::
      if name in gt then gt[name] else Migrate(props[name], dests)
  }

  /**
   * The old tensor a property of the new store comes from: the param of the
   * last group of that name, or else the property itself.
   */
  function OldTensor(props: map<string, Shards>, groups: seq<ParamGroup>, name: string): Shards
    requires SingleParam(groups)
    requires name in props || LastNamed(groups, name).Some?
  {
    match LastNamed(groups, name)
    case Some(gi) => groups[gi].params[0]
    case None => props[name]
  }

  // ---------------------------------------------------------------------
  // Lemmas about one round
  // ---------------------------------------------------------------------

  /**
   * Row coherence within a group: after the round, row k of member r's param
   * and, when present, of both moments come from the same origin row. The
   * group keeps its name, its single param, whether it has state, and the
   * rest of its state; a group without state gains none.
   */
  lemma NewGroupCoherent(groups: seq<ParamGroup>, dests: seq<seq<nat>>, gi: nat, r: nat, k: nat)
    requires forall i :: 0 <= i < |groups| ==> GroupReady(groups[i], dests)
    requires gi < |groups| && r < |dests|
    ensures var g, g' := groups[gi], NewGroups(groups, dests)[gi];
      g'.name == g.name && |g'.params| == 1 && g'.state.Some? == g.state.Some? &&
      (g.state.Some? ==> g'.state.value.steps == g.state.value.steps) &&
      |g'.params[0]| == |dests| && |g'.params[0][r]| == |Origins(dests)[r]| &&
      (g.state.Some? ==>
        |g'.state.value.expAvg| == |g'.state.value.expAvgSq| == |dests| &&
        |g'.state.value.expAvg[r]| == |g'.state.value.expAvgSq[r]| == |Origins(dests)[r]|)
    ensures k < |Origins(dests)[r]| ==>
      var o, g, g' := Origins(dests)[r][k], groups[gi], NewGroups(groups, dests)[gi];
      o.rank < |dests| && o.index < |dests[o.rank]| &&
      g'.params[0][r][k] == g.params[0][o.rank][o.index] &&
      (g.state.Some? ==>
        g'.state.value.expAvg[r][k] == g.state.value.expAvg[o.rank][o.index] &&
        g'.state.value.expAvgSq[r][k] == g.state.value.expAvgSq[o.rank][o.index])
  {
    var g := groups[gi];
    MigratedRowOrigin(g.params[0], dests, r, k);
    if g.state.Some? {
      MigratedRowOrigin(g.state.value.expAvg, dests, r, k);
      MigratedRowOrigin(g.state.value.expAvgSq, dests, r, k);
    }
  }

  /**
   * The new property store holds exactly the old property names plus the
   * group names, and each of its tensors is the migration of the old tensor
   * `OldTensor` names: the param of the last group of that name, or else the
   * old property.
   */
  lemma NewPropertyFrom(props: map<string, Shards>, groups: seq<ParamGroup>,
                        dests: seq<seq<nat>>, name: string)
    requires forall n :: n in props ==> Fits(props[n], dests)
    requires forall gi :: 0 <= gi < |groups| ==> GroupReady(groups[gi], dests)
    ensures name in NewProperties(props, groups, dests) <==> name in props || LastNamed(groups, name).Some?
    ensures name in NewProperties(props, groups, dests) ==>
      Fits(OldTensor(props, groups, name), dests) &&
      NewProperties(props, groups, dests)[name] == Migrate(OldTensor(props, groups, name), dests)
  {
    LastNamedSameNames(NewGroups(groups, dests), groups, name);
  }

  /**
   * Row coherence across the property store: row k of member r of EVERY
   * property comes from the same origin row, and every property has member
   * r's new row count.
   */
  lemma NewPropertiesCoherent(props: map<string, Shards>, groups: seq<ParamGroup>,
                              dests: seq<seq<nat>>, name: string, r: nat, k: nat)
    requires forall n :: n in props ==> Fits(props[n], dests)
    requires forall gi :: 0 <= gi < |groups| ==> GroupReady(groups[gi], dests)
    requires r < |dests| && (name in props || LastNamed(groups, name).Some?)
    ensures name in NewProperties(props, groups, dests)
    ensures Fits(OldTensor(props, groups, name), dests)
    ensures var t := NewProperties(props, groups, dests)[name];
      |t| == |dests| && |t[r]| == |Origins(dests)[r]| &&
      (k < |Origins(dests)[r]| ==>
        var o := Origins(dests)[r][k];
        o.rank < |dests| && o.index < |dests[o.rank]| &&
        t[r][k] == OldTensor(props, groups, name)[o.rank][o.index])
  {
    NewPropertyFrom(props, groups, dests, name);
    MigratedRowOrigin(OldTensor(props, groups, name), dests, r, k);
  }

  /** Sequences of groups with the same names agree on the last group of each name. */
  lemma {:induction false} LastNamedSameNames(a: seq<ParamGroup>, b: seq<ParamGroup>, name: string)
    requires |a| == |b| && forall i :: 0 <= i < |a| ==> a[i].name == b[i].name
    ensures LastNamed(a, name) == LastNamed(b, name)
  {
    if a != [] {
      var n := |a| - 1;
      LastNamedSameNames(a[..n], b[..n], name);
    }
  }

  /** Recording one more group extends the map by that group's name. */
  lemma GroupTensorsSnoc(groups: seq<ParamGroup>, k: nat)
    requires SingleParam(groups) && k < |groups|
    ensures GroupTensors(groups[..k + 1]) == GroupTensors(groups[..k])[groups[k].name := groups[k].params[0]]
  {
    assert groups[..k + 1][..k] == groups[..k];
  }

  lemma TagLengths(dests: seq<seq<nat>>)
    ensures Lengths(Tags(dests)) == Lengths(dests)
  {
  }

  /**
   * Conservation over the whole group: the new shard sizes add up to the old
   * ones, whatever the plan, including members that start empty.
   */
  lemma RoundKeepsTotal(dests: seq<seq<nat>>)
    requires IsPlan(dests)
    ensures Sum(Lengths(Origins(dests))) == Sum(Lengths(dests))
  {
    MigrateConservesCount(Tags(dests), dests);
    TagLengths(dests);
  }

  /** After a round every tensor has, on member r, as many rows as were routed to r. */
  lemma RoundIsShaped(props: map<string, Shards>, groups: seq<ParamGroup>, dests: seq<seq<nat>>)
    requires forall n :: n in props ==> Fits(props[n], dests)
    requires forall gi :: 0 <= gi < |groups| ==> GroupReady(groups[gi], dests)
    ensures PropsShaped(NewProperties(props, groups, dests), Lengths(Origins(dests)))
    ensures GroupsShaped(NewGroups(groups, dests), Lengths(Origins(dests)))
  {
    var np := NewProperties(props, groups, dests);
    forall name | name in np ensures Lengths(np[name]) == Lengths(Origins(dests)) {
      NewPropertyFrom(props, groups, dests, name);
      MigratedShape(OldTensor(props, groups, name), dests);
    }
    var ng := NewGroups(groups, dests);
    forall gi | 0 <= gi < |groups| ensures GroupShaped(ng[gi], Lengths(Origins(dests))) {
      MigratedGroupShaped(groups[gi], dests);
    }
  }

  /** Each tensor of a migrated group has the shape the plan routes to every member. */
  lemma MigratedGroupShaped(g: ParamGroup, dests: seq<seq<nat>>)
    requires GroupReady(g, dests)
    ensures GroupShaped(MigratedGroup(g, dests), Lengths(Origins(dests)))
  {
    MigratedShape(g.params[0], dests);
    if g.state.Some? {
      MigratedShape(g.state.value.expAvg, dests);
      MigratedShape(g.state.value.expAvgSq, dests);
    }
  }

  /**
   * The state a round under `dests` leaves behind: the plan fits every
   * tensor, the groups are the migrated groups and the property store is
   * the new store.
   */
  predicate RoundOf(props: map<string, Shards>, groups: seq<ParamGroup>, dests: seq<seq<nat>>,
                    props': map<string, Shards>, groups': seq<ParamGroup>)
  {
    (forall n :: n in props ==> Fits(props[n], dests)) &&
    (forall gi :: 0 <= gi < |groups| ==> GroupReady(groups[gi], dests)) &&
    groups' == NewGroups(groups, dests) && props' == NewProperties(props, groups, dests)
  }

  /**
   * A round leaves every member with one row per origin routed to it, in
   * every property and every group tensor, and keeps the particle total.
   */
  lemma RoundIsValid(props: map<string, Shards>, groups: seq<ParamGroup>, dests: seq<seq<nat>>,
                     props': map<string, Shards>, groups': seq<ParamGroup>, xyz: string)
    requires RoundOf(props, groups, dests, props', groups')
    requires IsPlan(dests) && xyz in props && Lengths(props[xyz]) == Lengths(dests)
    ensures xyz in props' && Lengths(props'[xyz]) == Lengths(Origins(dests))
    ensures PropsShaped(props', Lengths(Origins(dests))) && GroupsShaped(groups', Lengths(Origins(dests)))
    ensures Sum(Lengths(props'[xyz])) == Sum(Lengths(props[xyz]))
  {
    RoundIsShaped(props, groups, dests);
    NewPropertyFrom(props, groups, dests, xyz);
    RoundKeepsTotal(dests);
  }

  /** Overwriting entry i of a spliced sequence moves the splice point one on. */
  lemma Splice<T>(a: seq<T>, b: seq<T>, i: nat)
    requires |a| == |b| && i < |a|
    ensures (a[..i] + b[i..])[i := a[i]] == a[..i + 1] + b[i + 1..]
  {
  }

  lemma Spliced<T>(a: seq<T>, b: seq<T>)
    requires |a| == |b|
    ensures a[..|a|] + b[|b|..] == a
  {
  }

  /**
   * Every entry of m is the recorded group param of that name or, when no
   * group recorded one, the property of that name migrated with the plan.
   */
  predicate Recorded(m: map<string, Shards>, groupTensors: map<string, Shards>,
                     props: map<string, Shards>, dests: seq<seq<nat>>)
  {
    forall name :: name in m ==>
      if name in groupTensors then m[name] == groupTensors[name]
      else name in props && Fits(props[name], dests) && m[name] == Migrate(props[name], dests)
  }

  /** A map with the keys and entries `NewProperties` describes is the new store. */
  lemma NewPropertiesExt(props: map<string, Shards>, groups: seq<ParamGroup>,
                         dests: seq<seq<nat>>, m: map<string, Shards>)
    requires forall n :: n in props ==> Fits(props[n], dests)
    requires forall gi :: 0 <= gi < |groups| ==> GroupReady(groups[gi], dests)
    requires m.Keys == GroupTensors(NewGroups(groups, dests)).Keys + props.Keys
    requires Recorded(m, GroupTensors(NewGroups(groups, dests)), props, dests)
    ensures m == NewProperties(props, groups, dests)
  {
  }

  /**
   * One pass of the group loop of `optimizer_all2all`: the first moment, the
   * second moment and then the param are each sent through the row exchange
   * with the same plan.
   */
  method MigrateGroup(g: ParamGroup, dests: seq<seq<nat>>, received: seq<seq<nat>>) returns (g': ParamGroup)
    requires GroupReady(g, dests) && received == CountExchange(dests)
    ensures g' == MigratedGroup(g, dests)
  {
    if g.state.Some? {
      var st := g.state.value;
      var avg := ExchangeRows(st.expAvg, dests, received);
      var avgSq := ExchangeRows(st.expAvgSq, dests, received);
      var param := ExchangeRows(g.params[0], dests, received);
      g' := ParamGroup(g.name, [param], Some(st.(expAvg := avg, expAvgSq := avgSq)));
    } else {
      var param := ExchangeRows(g.params[0], dests, received);
      g' := ParamGroup(g.name, [param], None);
    }
  }

  /**
   * Where the group loop stands after gi passes: the first gi groups are
   * migrated in place, the rest untouched, and the params of the migrated
   * ones are recorded by name.
   */
  ghost predicate GroupLoopAt(groups: seq<ParamGroup>, dests: seq<seq<nat>>, gi: nat,
                              newGroups: seq<ParamGroup>, groupTensors: map<string, Shards>)
  {
    (forall i :: 0 <= i < |groups| ==> GroupReady(groups[i], dests)) && gi <= |groups| &&
    newGroups == NewGroups(groups, dests)[..gi] + groups[gi..] &&
    groupTensors == GroupTensors(NewGroups(groups, dests)[..gi])
  }

  lemma GroupLoopStart(groups: seq<ParamGroup>, dests: seq<seq<nat>>)
    requires forall i :: 0 <= i < |groups| ==> GroupReady(groups[i], dests)
    ensures GroupLoopAt(groups, dests, 0, groups, map[])
  {
    assert NewGroups(groups, dests)[..0] == [];
  }

  lemma GroupLoopDone(groups: seq<ParamGroup>, dests: seq<seq<nat>>,
                      newGroups: seq<ParamGroup>, groupTensors: map<string, Shards>)
    requires GroupLoopAt(groups, dests, |groups|, newGroups, groupTensors)
    ensures newGroups == NewGroups(groups, dests) && groupTensors == GroupTensors(newGroups)
  {
    Spliced(NewGroups(groups, dests), groups);
    assert NewGroups(groups, dests)[..|groups|] == NewGroups(groups, dests);
  }

  /**
   * The group loop of `optimizer_all2all`: every group migrated in order,
   * and its new param recorded under its name.
   */
  method MigrateGroups(groups: seq<ParamGroup>, dests: seq<seq<nat>>, received: seq<seq<nat>>)
    returns (newGroups: seq<ParamGroup>, groupTensors: map<string, Shards>)
    requires forall gi :: 0 <= gi < |groups| ==> GroupReady(groups[gi], dests)
    requires received == CountExchange(dests)
    ensures newGroups == NewGroups(groups, dests)
    ensures groupTensors == GroupTensors(newGroups)
  {
    newGroups, groupTensors := groups, map[];
    GroupLoopStart(groups, dests);
    for gi := 0 to |groups|
      invariant GroupLoopAt(groups, dests, gi, newGroups, groupTensors)
    {
      newGroups, groupTensors := MigrateNextGroup(groups, dests, received, gi, newGroups, groupTensors);
    }
    GroupLoopDone(groups, dests, newGroups, groupTensors);
  }

  /**
   * One pass of the group loop: group gi is migrated in place and its new
   * param recorded under its name.
   */
  method MigrateNextGroup(groups: seq<ParamGroup>, dests: seq<seq<nat>>, received: seq<seq<nat>>, gi: nat,
                          newGroups: seq<ParamGroup>, groupTensors: map<string, Shards>)
    returns (newGroups': seq<ParamGroup>, groupTensors': map<string, Shards>)
    requires GroupLoopAt(groups, dests, gi, newGroups, groupTensors)
    requires received == CountExchange(dests) && gi < |groups|
    ensures GroupLoopAt(groups, dests, gi + 1, newGroups', groupTensors')
  {
    ghost var NG := NewGroups(groups, dests);
    assert newGroups[gi] == groups[gi];
    var g := MigrateGroup(newGroups[gi], dests, received);
    Splice(NG, groups, gi);
    newGroups' := newGroups[gi := g];
    groupTensors' := groupTensors[g.name := g.params[0]];
    GroupTensorsSnoc(NG, gi);
  }

  /** One pass of the property loop: a name not yet recorded gets its property migrated. */
  method RecordProperty(m: map<string, Shards>, groupTensors: map<string, Shards>,
                        props: map<string, Shards>, dests: seq<seq<nat>>, received: seq<seq<nat>>,
                        name: string)
    returns (m': map<string, Shards>)
    requires name in props && Fits(props[name], dests) && received == CountExchange(dests)
    requires groupTensors.Keys <= m.Keys && Recorded(m, groupTensors, props, dests)
    ensures m'.Keys == m.Keys + {name}
    ensures Recorded(m', groupTensors, props, dests)
  {
    m' := m;
    if name !in m {
      var moved := ExchangeRows(props[name], dests, received);
      m' := m[name := moved];
    }
  }

  /**
   * The property loop of `optimizer_all2all`, over the property names in the
   * order they are listed: every name no group recorded gets its property
   * migrated on its own; the recorded group params are kept.
   */
  method MigrateOtherProperties(props: map<string, Shards>, names: seq<string>,
                                groupTensors: map<string, Shards>,
                                dests: seq<seq<nat>>, received: seq<seq<nat>>)
    returns (newTensors: map<string, Shards>)
    requires forall name :: name in props ==> Fits(props[name], dests)
    requires forall name :: name in names <==> name in props
    requires received == CountExchange(dests)
    ensures newTensors.Keys == groupTensors.Keys + props.Keys
    ensures Recorded(newTensors, groupTensors, props, dests)
  {
    newTensors := groupTensors;
    for i := 0 to |names|
      invariant forall name :: name in newTensors <==> name in groupTensors || name in names[..i]
      invariant Recorded(newTensors, groupTensors, props, dests)
    {
      newTensors := RecordProperty(newTensors, groupTensors, props, dests, received, names[i]);
      assert names[..i + 1] == names[..i] + [names[i]];
    }
    assert names[..|names|] == names;
  }

  /** The names of a set, listed in some order. */
  method Listed<T>(s: set<T>) returns (xs: seq<T>)
    ensures forall x :: x in xs <==> x in s
  {
    xs := [];
    var remaining := s;
    while remaining != {}
      invariant remaining <= s
      invariant forall x :: x in xs <==> x in s - remaining
      decreases |remaining|
    {
      var x :| x in remaining;
      xs := xs + [x];
      remaining := remaining - {x};
    }
  }

  // ---------------------------------------------------------------------
  // The process group
  // ---------------------------------------------------------------------

  /**
   * The property stores and optimizers of all W members, with the shared
   * configuration. This is the state of the W renderers of the group (one
   * `Partition.Renderer` per member) after `training_setup`: `worldSize` is
   * the world size each of them recorded, and column k of every property is
   * what the renderer of rank k holds. `densityChanged` counts the calls of
   * the density-changed callback.
   */
  class Cluster {
    const worldSize: nat
    const interval: int     // redistribute_interval
    const until: int        // redistribute_until
    const threshold: real   // redistribute_threshold
    const xyz: string       // the property the particle positions are read from
    var properties: map<string, Shards>
    var groups: seq<ParamGroup>
    var densityChanged: nat

    /** Every tensor has, on each member, that member's particle count of rows. */
    predicate Valid()
      reads this
    {
      worldSize > 0 && xyz in properties && |properties[xyz]| == worldSize &&
      PropsShaped(properties, Lengths(properties[xyz])) &&
      GroupsShaped(groups, Lengths(properties[xyz]))
    }

    /** The particle count of every member. */
    function Sizes(): (sizes: seq<nat>)
      reads this
      requires Valid()
      ensures |sizes| == worldSize
    {
      Lengths(properties[xyz])
    }

    /** The number of particles in the whole group. */
    function Total(): nat
      reads this
      requires Valid()
    {
      Sum(Sizes())
    }

    /** A destination for every local row of every member, each a member's rank. */
    predicate PlanFor(dests: seq<seq<nat>>)
      reads this
      requires Valid()
    {
      |dests| == worldSize && IsPlan(dests) && Lengths(dests) == Sizes()
    }

    constructor (worldSize: nat, interval: int, until: int, threshold: real, xyz: string,
                 properties: map<string, Shards>, groups: seq<ParamGroup>)
      requires worldSize > 0 && xyz in properties && |properties[xyz]| == worldSize
      requires PropsShaped(properties, Lengths(properties[xyz]))
      requires GroupsShaped(groups, Lengths(properties[xyz]))
      ensures Valid() && densityChanged == 0
      ensures this.worldSize == worldSize && this.interval == interval && this.until == until
      ensures this.threshold == threshold && this.xyz == xyz
      ensures this.properties == properties && this.groups == groups
    {
      this.worldSize := worldSize;
      this.interval := interval;
      this.until := until;
      this.threshold := threshold;
      this.xyz := xyz;
      this.properties := properties;
      this.groups := groups;
      densityChanged := 0;
    }

    /**
     * `optimizer_all2all`: migrates, group by group, the moments (when the
     * group has state) and the param, recording each group's new param under
     * its name; then migrates every property not named by a group; and
     * replaces the property store wholesale.
     */
    method OptimizerAll2All(dests: seq<seq<nat>>, received: seq<seq<nat>>)
      requires Valid() && PlanFor(dests) && SingleParam(groups)
      requires received == CountExchange(dests)
      modifies this
      ensures RoundOf(old(properties), old(groups), dests, properties, groups)
      ensures densityChanged == old(densityChanged)
    {
      ShapedReady(groups, dests);
      PropsReady(properties, dests);
      var newGroups, groupTensors := MigrateGroups(groups, dests, received);
      groups := newGroups;
      var names := Listed(properties.Keys);
      var newTensors := MigrateOtherProperties(properties, names, groupTensors, dests, received);
      NewPropertiesExt(properties, old(groups), dests, newTensors);
      properties := newTensors;
    }

    /**
     * `random_redistribute`: every member counts its rows per destination,
     * the counts are exchanged, the whole state is migrated, and the density
     * callback is invoked once.
     */
    method RandomRedistribute(dests: seq<seq<nat>>)
      requires Valid() && PlanFor(dests) && SingleParam(groups)
      modifies this
      ensures RoundOf(old(properties), old(groups), dests, properties, groups)
      ensures densityChanged == old(densityChanged) + 1
      ensures Valid() && Sizes() == Lengths(Origins(dests)) && Total() == old(Total())
    {
      var w := worldSize;
      var counts := seq(w, s requires 0 <= s < w => Bincount(dests[s], w));
      var received := ExchangeSizes(counts);
      OptimizerAll2All(dests, received);
      densityChanged := densityChanged + 1;
      RoundIsValid(old(properties), old(groups), dests, properties, groups, xyz);
    }

    /**
     * `redistribute`: gathers every member's row count and runs a round only
     * when `min * threshold < max`; a skipped round changes nothing.
     */
    method Redistribute(dests: seq<seq<nat>>) returns (ran: bool)
      requires Valid() && PlanFor(dests) && SingleParam(groups)
      modifies this
      ensures ran == SizeGateDue(old(Sizes()), threshold)
      ensures !ran ==>
        properties == old(properties) && groups == old(groups) && densityChanged == old(densityChanged)
      ensures ran ==>
        RoundOf(old(properties), old(groups), dests, properties, groups) &&
        densityChanged == old(densityChanged) + 1
      ensures Valid() && Total() == old(Total())
    {
      var sizes := Sizes();
      ghost var due := SizeGateDue(sizes, threshold);
      if (MinOf(sizes) as real) * threshold >= MaxOf(sizes) as real {
        return false;
      }
      assert due;
      RandomRedistribute(dests);
      ran := true;
    }

    /**
     * `after_training_step`: runs `redistribute` on scheduled steps only; an
     * interval of 0 fails on the modulo before anything changes.
     */
    method AfterTrainingStep(step: int, dests: seq<seq<nat>>) returns (decision: StepDecision, ran: bool)
      requires Valid() && PlanFor(dests) && SingleParam(groups)
      modifies this
      ensures decision == StepGate(interval, until, step)
      ensures ran ==> decision == Scheduled
      ensures decision == Scheduled ==> ran == SizeGateDue(old(Sizes()), threshold)
      ensures !ran ==>
        properties == old(properties) && groups == old(groups) && densityChanged == old(densityChanged)
      ensures ran ==>
        RoundOf(old(properties), old(groups), dests, properties, groups) &&
        densityChanged == old(densityChanged) + 1
      ensures Valid() && Total() == old(Total())
    {
      if interval < 0 {
        return NotScheduled, false;
      }
      if step >= until {
        return NotScheduled, false;
      }
      if interval == 0 {
        return ZeroDivision, false;
      }
      if step % interval != 0 {
        return NotScheduled, false;
      }
      ran := Redistribute(dests);
      decision := Scheduled;
    }
  }
}
