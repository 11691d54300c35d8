# Distributed Gaussian-splatting renderer: data movement

This project models the data-movement logic of the distributed Gaussian-splatting
renderer (`GSplatDistributedRendererImpl`) and proves its properties. Every member
of the process group owns a shard of the Gaussian particles. The renderer decides
three things:

- how the particles are first cut into shards;
- when and how particles move between members to rebalance the shards;
- how the particles visible from each member's camera reach the member that
  renders that camera.

The whole process group is modelled as one global state: a sequence of W
per-member values indexed by rank. The collectives become pure functions over
that state:

- `all_gather` is the rank-indexed sequence itself;
- `all_to_all` is a transpose (member r receives from member s what s addressed
  to r: `received[r][s] == send[s][r]`);
- an `all_to_all` into buffers pre-sized by an earlier count exchange fails
  (`None`) when a buffer does not match its payload.

Modules:

- `Collective` (`collective.dfy`): sequence tools with the torch operations they
  stand for.
  - `Masked` is boolean-mask indexing and `Flatten` is `torch.concat(..., dim=0)`.
  - `SplitRow` is `torch.split` by widths.
  - `ExchangeSizes` and `ExchangeVariable` are the two forms of `all_to_all`.
- `Partition` (`partition.dfy`): the initial cut made by `training_setup`.
  - `RoundHalfEven` is Python's `round(n / W)`, computed exactly in integers.
  - `PySlice` is Python's clamping slice.
  - The `Renderer` class holds the `world_size` / `global_rank` fields.
- `Gating` (`gating.dfy`): the step test of `after_training_step` and the
  shard-size test of `redistribute`.
- `Migration` (`migration.dfy`): one rebalancing exchange of one column.
  - Every member holds a plan, one destination rank per local row.
  - Rows are bucketed by destination and the bucket counts are exchanged.
  - The buckets are exchanged, and each member concatenates what it received in
    source-rank order.
  - `Origins` labels every row with the (rank, index) it came from.
- `Redistribution` (`redistribution.dfy`): the rebalancing round over the
  property store and the optimizer param groups.
  - This covers `optimizer_all2all`, `random_redistribute`, `redistribute` and
    `after_training_step`.
  - The `Cluster` class holds the global state; its methods update it in place.
  - Every property and every param group is stored once for the whole group,
    with one column per member.
- `Visibility` (`visibility.dfy`): `rasterizer_required_data_all2all` and the
  camera gathering of `forward`.
  - Each member masks its particles by `radii > 0` for every member's camera.
  - Each visible particle is packed into one float row `[2,1,3,1,1,3]` and one
    int row `[1,1]`.
  - The rows are exchanged, concatenated in rank order and split back into
    fields.

## Model

| member | source | states |
|---|---|---|
| Collective.Masked | internal/renderers/gsplat_distributed_renderer.py:155 | boolean-mask indexing keeps exactly as many entries as the mask has set bits |
| Collective.MaskedMember | internal/renderers/gsplat_distributed_renderer.py:155 | every kept entry is an entry of the input whose mask bit is set |
| Collective.MaskedKeeps | internal/renderers/gsplat_distributed_renderer.py:155 | every entry whose mask bit is set is kept |
| Collective.ExchangeSizes | internal/renderers/gsplat_distributed_renderer.py:117-121 | after the count all-to-all, member r holds for source s the count s addressed to r |
| Collective.ExchangeVariable | internal/renderers/gsplat_distributed_renderer.py:166-185 | the payload all-to-all into pre-sized buffers succeeds exactly when every buffer matches its payload, and then member r holds from s what s sent to r |
| Collective.TransposeConservesMultiset | internal/renderers/gsplat_distributed_renderer.py:389 | an all-to-all neither loses nor duplicates a payload entry over the whole group |
| Collective.SplitRow | internal/renderers/gsplat_distributed_renderer.py:191-199 | `torch.split` by widths succeeds exactly when the widths add up to the row length, and the fields have those widths and concatenate back to the row |
| Collective.SplitFlatten | internal/renderers/gsplat_distributed_renderer.py:188-199 | splitting a concatenation by its parts' lengths returns exactly the parts |
| Collective.FlattenLength | internal/renderers/gsplat_distributed_renderer.py:188-189 | a concatenation is as long as the sum of its parts' lengths |
| Collective.FlattenMember | internal/renderers/gsplat_distributed_renderer.py:188 | every element of a concatenation comes from one of its parts |
| Collective.FlattenMap | internal/renderers/gsplat_distributed_renderer.py:147-160 | packing parts entry by entry and then concatenating equals concatenating and then packing |
| Partition.RoundHalfEven | internal/renderers/gsplat_distributed_renderer.py:70 | the per-member share `round(n / W)` is a nearest integer to `n / W`, and the even one on a tie |
| Partition.SliceBounds | internal/renderers/gsplat_distributed_renderer.py:72-75 | the bounds member `rank` computes: `l = p * rank`, and `r = l + p`, or `n` for the last member |
| Partition.PySlice | internal/renderers/gsplat_distributed_renderer.py:79 | Python's `xs[l:r]`: the range itself when it lies within the column, cut at the end when `r` runs past it, and empty when `l` is past the end or `r <= l` |
| Partition.ShardRange | internal/renderers/gsplat_distributed_renderer.py:72-79 | the clamped slice of member k is exactly the global range `[Lo, Hi)` |
| Partition.OwnerExactlyOne | internal/renderers/gsplat_distributed_renderer.py:72-75 | every global index lies in exactly one member's slice, for any share `p` |
| Partition.AdjacentSlices | internal/renderers/gsplat_distributed_renderer.py:72-75 | a non-last slice ends where the next one starts |
| Partition.SlicesReassemble | internal/renderers/gsplat_distributed_renderer.py:72-79 | the slices of all members concatenated in rank order are the global column |
| Partition.SliceLengthsSum | internal/renderers/gsplat_distributed_renderer.py:72-79 | the slice lengths add up to the global particle count |
| Partition.Renderer.constructor | internal/renderers/gsplat_distributed_renderer.py:49-50 | a new renderer is a single-member world of rank 0 that has not notified the density callback |
| Partition.Renderer.TrainingSetup | internal/renderers/gsplat_distributed_renderer.py:65-85 | records the member's place, computes `[l, r)` with the rounded share and the last member taking the rest, slices every property by it, and notifies the density callback once |
| Partition.SliceProperties | internal/renderers/gsplat_distributed_renderer.py:77-79 | keeps exactly the property names and maps each to its clamped slice `[l:r)` |
| Gating.MinOf | internal/renderers/gsplat_distributed_renderer.py:353 | `min` of the gathered sizes is one of them and at most every one |
| Gating.MaxOf | internal/renderers/gsplat_distributed_renderer.py:353 | `max` of the gathered sizes is one of them and at least every one |
| Gating.SizeGateDue | internal/renderers/gsplat_distributed_renderer.py:353 | the size test over the gathered sizes: a round is due when `min * threshold < max` |
| Gating.StepGate | internal/renderers/gsplat_distributed_renderer.py:336-343 | a round is scheduled exactly when the interval is positive, the step is before the cut-off and a multiple of the interval; the modulo fails exactly for interval 0 before the cut-off |
| Gating.SkewedMonotone | internal/renderers/gsplat_distributed_renderer.py:353 | a smaller shard or a larger one keeps the size test firing |
| Gating.SkewedNeedsSmaller | internal/renderers/gsplat_distributed_renderer.py:31 | with threshold at least 1 the test needs a strictly smaller shard |
| Gating.SizeGateDueIff | internal/renderers/gsplat_distributed_renderer.py:353-358 | the test fires exactly when some shard scaled by the threshold is smaller than some other shard |
| Gating.SizeGateNeedsImbalance | internal/renderers/gsplat_distributed_renderer.py:31 | with threshold at least 1, equal sizes never fire the test and a firing test implies unequal sizes |
| Migration.All2AllGaussianState | internal/renderers/gsplat_distributed_renderer.py:377-391 | builds the buckets per destination, exchanges them into buffers pre-sized by `received` and concatenates; succeeds exactly when `received` is the count exchange of the plan, and then yields `Migrate` |
| Migration.BuildInputList | internal/renderers/gsplat_distributed_renderer.py:381-387 | entry i of one member's input list is its rows whose destination is i, in their local order |
| Migration.Bucket | internal/renderers/gsplat_distributed_renderer.py:387 | `local_tensor[destination == r]`: the rows of one member bound for r, in local order |
| Migration.Bincount | internal/renderers/gsplat_distributed_renderer.py:362 | `torch.bincount(destination, minlength=W)`: one count per destination rank, counting the rows bound for it |
| Migration.Migrate | internal/renderers/gsplat_distributed_renderer.py:377-391 | the new local column of every member after `all2all_gaussian_state`: what it received from each source, concatenated in rank order; one column per member |
| Migration.ExchangeRows | internal/renderers/gsplat_distributed_renderer.py:394-395 | with the counts of the same plan the column exchange always succeeds and yields `Migrate` |
| Migration.CountIsOccurrences | internal/renderers/gsplat_distributed_renderer.py:362 | the bincount for destination r is the number of rows whose destination is r |
| Migration.BucketLength | internal/renderers/gsplat_distributed_renderer.py:382-387 | each bucket is as long as the count announced for its destination |
| Migration.CountExchangeReceived | internal/renderers/gsplat_distributed_renderer.py:362-368 | after the count exchange, member r holds for source s the number of s's rows bound for r |
| Migration.CapacitiesFitIff | internal/renderers/gsplat_distributed_renderer.py:381-389 | the pre-sized buffers fit the buckets exactly when they hold the exchanged counts |
| Migration.BucketsPartition | internal/renderers/gsplat_distributed_renderer.py:387 | cutting a column by destination keeps every row exactly once |
| Migration.BincountSum | internal/renderers/gsplat_distributed_renderer.py:362 | the per-destination counts add up to the local row count |
| Migration.ReceivedRow | internal/renderers/gsplat_distributed_renderer.py:389 | member r receives, from each source s in rank order, s's bucket for r, sized by the exchanged counts |
| Migration.MigratedLength | internal/renderers/gsplat_distributed_renderer.py:391 | the new column of member r is as long as the sum of its received counts |
| Migration.MigratedSplitsBySource | internal/renderers/gsplat_distributed_renderer.py:391 | member r's new column is the rank-ordered concatenation of each source's bucket for r, empty buckets included |
| Migration.MigrateConserves | internal/renderers/gsplat_distributed_renderer.py:360-391 | a round keeps the multiset of all rows of the group |
| Migration.MigrateConservesCount | internal/renderers/gsplat_distributed_renderer.py:360-391 | a round keeps the total row count of the group |
| Migration.OriginsExactlyOnce | internal/renderers/gsplat_distributed_renderer.py:360-391 | every (source rank, source index) origin ends up on exactly one member exactly once, and nothing else appears |
| Migration.MigrateMember | internal/renderers/gsplat_distributed_renderer.py:387-391 | every row member r receives is a row of some source whose destination is r |
| Migration.OriginsRouted | internal/renderers/gsplat_distributed_renderer.py:387-391 | the origin of every row member r holds was routed to r |
| Migration.MigrateZip | internal/renderers/gsplat_distributed_renderer.py:394-395 | migrating two aligned columns with one plan keeps them aligned |
| Migration.MigratedRowOrigin | internal/renderers/gsplat_distributed_renderer.py:394-395 | row k of member r's new column is the origin row `Origins[r][k]` of the old column, for every column |
| Migration.MigratedShape | internal/renderers/gsplat_distributed_renderer.py:391 | every migrated column has, on each member, one row per origin routed to it |
| Migration.OriginsAscending | internal/renderers/gsplat_distributed_renderer.py:387-391 | member r's rows are ordered by source rank and then by source index: each bucket keeps its relative order |
| Migration.EvenOddRound | internal/renderers/gsplat_distributed_renderer.py:361-391 | a two-member scenario: 6 and 4 rows, alternating destinations, leave 5 rows on each member |
| Redistribution.MigratedGroup | internal/renderers/gsplat_distributed_renderer.py:400-412 | a migrated group keeps its name, its single param and whether it has optimizer state |
| Redistribution.NewGroups | internal/renderers/gsplat_distributed_renderer.py:399-412 | the round keeps the number of groups, their names and one param each |
| Redistribution.GroupTensors | internal/renderers/gsplat_distributed_renderer.py:414 | the recorded group tensors hold exactly the group names, each mapped to the param of the last group of that name |
| Redistribution.NewProperties | internal/renderers/gsplat_distributed_renderer.py:414-423 | the property store after a round: every group name mapped to its group's new param, every other property migrated on its own |
| Redistribution.NewGroupCoherent | internal/renderers/gsplat_distributed_renderer.py:402-412 | row k of member r's param and of both moments comes from the same origin row; a group without state gains none and the rest of the state is kept |
| Redistribution.NewPropertyFrom | internal/renderers/gsplat_distributed_renderer.py:414-420 | the new store holds exactly the old property names plus the group names, each the migration of the last same-named group's param or else of the old property |
| Redistribution.NewPropertiesCoherent | internal/renderers/gsplat_distributed_renderer.py:414-423 | row k of member r of every new property comes from the same origin row |
| Redistribution.RoundKeepsTotal | internal/renderers/gsplat_distributed_renderer.py:360-391 | the new shard sizes add up to the old ones, members that start empty included |
| Redistribution.RoundIsShaped | internal/renderers/gsplat_distributed_renderer.py:393-423 | after a round every property and every group tensor has one row per routed origin on each member |
| Redistribution.RoundIsValid | internal/renderers/gsplat_distributed_renderer.py:360-423 | after a round the store is consistent again and the particle total is kept |
| Redistribution.MigrateGroup | internal/renderers/gsplat_distributed_renderer.py:402-412 | migrates the moments when the group has state, then the param, giving `MigratedGroup` |
| Redistribution.MigrateGroups | internal/renderers/gsplat_distributed_renderer.py:399-414 | the group loop yields the migrated groups and the name-to-param map of the last group of each name |
| Redistribution.MigrateNextGroup | internal/renderers/gsplat_distributed_renderer.py:399-414 | one pass of the group loop migrates group gi in place and records its param under its name; earlier groups stay migrated and later ones untouched |
| Redistribution.RecordProperty | internal/renderers/gsplat_distributed_renderer.py:417-420 | a property already recorded by a group is skipped; any other is migrated and recorded |
| Redistribution.MigrateOtherProperties | internal/renderers/gsplat_distributed_renderer.py:417-420 | the property loop leaves the group tensors plus every remaining property migrated |
| Redistribution.Cluster.constructor | internal/renderers/gsplat_distributed_renderer.py:20-31 | the global state starts with the given configuration and tensors, consistent, with no density notification |
| Redistribution.Cluster.OptimizerAll2All | internal/renderers/gsplat_distributed_renderer.py:393-423 | the new groups and property store are exactly those of a round under the plan |
| Redistribution.Cluster.RandomRedistribute | internal/renderers/gsplat_distributed_renderer.py:360-375 | bincounts, exchanges the counts and migrates everything; the density callback runs once; shard sizes become the routed counts and the total is kept |
| Redistribution.Cluster.Redistribute | internal/renderers/gsplat_distributed_renderer.py:345-358 | runs a round exactly when `min * threshold < max` over the gathered sizes; a skipped round changes nothing |
| Redistribution.Cluster.AfterTrainingStep | internal/renderers/gsplat_distributed_renderer.py:336-343 | decides by the step test (including the failing modulo for interval 0) and redistributes only on scheduled steps |
| Visibility.UnpackPack | internal/renderers/gsplat_distributed_renderer.py:147-160 | splitting a packed float row by `[2,1,3,1,1,3]` and an int row by `[1,1]` returns exactly the packed fields and the packed record |
| Visibility.PackUnpack | internal/renderers/gsplat_distributed_renderer.py:191-199 | a pair of rows that splits into a record is that record's packing |
| Visibility.Unpack | internal/renderers/gsplat_distributed_renderer.py:191-199 | the split succeeds exactly for an 11-wide float row and a 2-wide int row |
| Visibility.SplitFieldsPacked | internal/renderers/gsplat_distributed_renderer.py:188-199 | splitting a batch of packed rows gives back the batch |
| Visibility.VisibleMask | internal/renderers/gsplat_distributed_renderer.py:117 | `radii > 0`: one bit per particle, set for the particles visible from the camera |
| Visibility.PackFloat | internal/renderers/gsplat_distributed_renderer.py:147-155 | the float row of one particle: position, depth, conic, compensation, opacity and color, in that order |
| Visibility.PackInt | internal/renderers/gsplat_distributed_renderer.py:157-160 | the int row of one particle: radius and tiles hit |
| Visibility.Merged | internal/renderers/gsplat_distributed_renderer.py:188-189 | what member r rasterizes: the visible records each member sent for r's camera, concatenated in rank order |
| Visibility.MergedVisible | internal/renderers/gsplat_distributed_renderer.py:117-155 | every record a member rasterizes has a positive radius |
| Visibility.MergedOrigin | internal/renderers/gsplat_distributed_renderer.py:144-160 | every record member r rasterizes is a visible particle of some member, for r's camera |
| Visibility.MergedComplete | internal/renderers/gsplat_distributed_renderer.py:144-160 | every visible particle of every member for r's camera reaches member r |
| Visibility.MergedLength | internal/renderers/gsplat_distributed_renderer.py:117-175 | member r receives exactly the sum of the visible counts it gathered |
| Visibility.MergedSplitsBySource | internal/renderers/gsplat_distributed_renderer.py:166-189 | splitting what member r rasterizes by the counts it gathered gives back, in rank order, the visible records each member sent for r's camera |
| Visibility.BuildInputs | internal/renderers/gsplat_distributed_renderer.py:129-163 | for every camera the input rows are the packed records of the visible particles |
| Visibility.BuildAllInputs | internal/renderers/gsplat_distributed_renderer.py:129-163 | entry [s][c] is the packing of member s's particles visible from member c's camera |
| Visibility.RasterizerRequiredDataAll2All | internal/renderers/gsplat_distributed_renderer.py:109-204 | returns the masks `radii > 0` and, for member r, the visible records of every member for r's camera concatenated in rank order |
| Visibility.MergeReceived | internal/renderers/gsplat_distributed_renderer.py:186-199 | concatenating and splitting what member r received gives exactly the visible records of every member for r's camera, in rank order |
| Visibility.GatherCameras | internal/renderers/gsplat_distributed_renderer.py:244-249 | succeeds exactly when every gathered id is in range, and then entry i is the camera of id i |
| Visibility.Views | internal/renderers/gsplat_distributed_renderer.py:252-261 | every member projects and shades its particles for every gathered camera |
| Visibility.Forward | internal/renderers/gsplat_distributed_renderer.py:233-279 | member r renders the camera it announced, from the train or validation set, with the records merged for it; it fails exactly when an id is out of range |
| Visibility.PairFrames | internal/renderers/gsplat_distributed_renderer.py:279 | frame r pairs the camera gathered at rank r with the records merged for r |

## Left out

- The projection, shading and rasterization kernels are not modelled.
  - Their float results enter as values (`Splat`, `Color`) or as function parameters.
  - This covers `project_gaussians`, `spherical_harmonics`, `get_rgbs` and `rasterize_gaussians`.
- The 3-D covariance in the projection results is not modelled; it is not sent.
- Float numerics are not modelled.
  - The anti-aliasing `opacities * comp` multiply is left out.
  - The inverse-depth image is left out.
  - The size test treats the threshold as an exact real.
- Partition.RoundHalfEven: the share is rounded from the exact quotient. Python divides in floating point first, which can differ for very large counts.
- The random destination vector of `torch.randint` is an input, the plan.
- The transport is not modelled: blocking, concurrency and device placement are left out. Collectives are functions of the global state.
- The profiler, logging, the traceback fallback and `get_available_outputs` are left out, as are autograd, `torch.nn.Parameter` and `requires_grad`.
- `replace_tensors_to_optimizer` hands the sliced tensors to a property-replacement helper. That helper is not part of this model, so `Renderer.TrainingSetup` returns the sliced tensors.
- The `on_density_changed` callback is recorded only as a counter (`densityChanged`), both for `training_setup` and for `random_redistribute`.
- Partition.Renderer.TrainingSetup: the properties are a map, so the dictionary order of the loop is not modelled.
- Redistribution.Cluster.OptimizerAll2All: the order of `get_property_names()` is not modelled; the names are visited in some order.
- The property names and optimizer layout are assumed to be the same on every member.
  - Each property and param group is held once for the whole group, with one column per member.
  - The collectives only line up across members when this holds.
- Several optimizers are flattened into one sequence of param groups, in iteration order.
- The optimizer state of a group's param is stored inside the group. The delete and re-insert under the new param's identity is therefore implicit.
- The state holds both moments and a step entry. The step entry is kept as is; other state entries are not modelled.
- Redistribution.Cluster.OptimizerAll2All: requires every group to hold exactly one param. The source asserts this mid-loop, after earlier groups were already exchanged; that failure path is not modelled.
- Visibility.RasterizerRequiredDataAll2All: returns one record per visible particle rather than separate per-field tensors. `squeeze(-1)` and the tuple layout are left out.
- Visibility.RasterizerRequiredDataAll2All: the int tensor is 32-bit (`torch.int`). Radii and tile counts are unbounded integers here.
- The visibility mask is `radii > 0` alone, as the code computes it. A particle that hits no tile but has a positive radius is still sent.
- Visibility.GatherCameras: camera ids are natural numbers. Python's negative indexing of the camera set from the end is not modelled.
- Visibility.Forward: a camera holds what the projection and the shading read of it: the world-to-camera matrix, the intrinsics, the image size and the camera centre. Its other attributes, and moving it to the local device, are left out.
