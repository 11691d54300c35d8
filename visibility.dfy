/**
 * The visibility exchange of `forward`: every member projects its own
 * particles for the camera of every member, keeps the visible ones
 * (`radii > 0`), packs each visible particle into one float row and one int
 * row, and sends them to the member that renders that camera; the receiver
 * concatenates what it got in rank order and splits the rows back into
 * fields. Before that, the members exchange their camera ids and each looks
 * up every member's camera.
 *
 * The projection and shading kernels are foreign numerics: their results
 * enter the model as values (`Splat`, `Color`) or as function parameters.
 */
module Visibility {
  import opened Collective

  /**
   * What the projection kernel returns for one particle and one camera:
   * screen position, depth, radius, conic, compensation and tiles hit. The
   * 3-D covariance is not sent and is not modelled.
   */
  datatype Splat = Splat(x: real, y: real, depth: real, radius: int,
                         conicA: real, conicB: real, conicC: real, comp: real, tilesHit: int)

  datatype Color = Color(r: real, g: real, b: real)

  /** One particle's rasterization data for one camera. */
  datatype Record = Record(splat: Splat, opacity: real, rgb: Color)

  /**
   * What one member holds before the exchange: for the camera of every
   * member c, the projection and the color of each local particle, and the
   * opacity of each local particle.
   */
  datatype MemberView = MemberView(projections: seq<seq<Splat>>, colors: seq<seq<Color>>, opacities: seq<real>)

  /** One entry per camera, each as long as the member's particle list. */
  predicate WellFormed(m: MemberView, w: nat)
  {
    |m.projections| == w && |m.colors| == w &&
    forall c :: 0 <= c < w ==> |m.projections[c]| == |m.opacities| && |m.colors[c]| == |m.opacities|
  }

  predicate AllWellFormed(members: seq<MemberView>)
  {
    forall s :: 0 <= s < |members| ==> WellFormed(members[s], |members|)
  }

  // ---------------------------------------------------------------------
  // Packing
  // ---------------------------------------------------------------------

  /** Field widths of the float row: position, depth, conic, compensation, opacity, color. */
  const FloatWidths: seq<nat> := [2, 1, 3, 1, 1, 3]

  /** Field widths of the int row: radius, tiles hit. */
  const IntWidths: seq<nat> := [1, 1]

  function FloatFields(rec: Record): seq<seq<real>>
  {
    var s := rec.splat;
    [[s.x, s.y], [s.depth], [s.conicA, s.conicB, s.conicC], [s.comp], [rec.opacity],
     [rec.rgb.r, rec.rgb.g, rec.rgb.b]]
  }

  function IntFields(rec: Record): seq<seq<int>>
  {
    [[rec.splat.radius], [rec.splat.tilesHit]]
  }

  /** The float row sent for one visible particle: its fields concatenated. */
  function PackFloat(rec: Record): seq<real>
  {
    Flatten(FloatFields(rec))
  }

  /** The int row sent for one visible particle. */
  function PackInt(rec: Record): seq<int>
  {
    Flatten(IntFields(rec))
  }

  /** Reads a record back from its fields, once they have the field widths. */
  function FromFields(ff: seq<seq<real>>, ii: seq<seq<int>>): Record
    requires Lengths(ff) == FloatWidths && Lengths(ii) == IntWidths
  {
    assert |ff[0]| == 2 && |ff[1]| == 1 && |ff[2]| == 3 && |ff[3]| == 1 && |ff[4]| == 1 && |ff[5]| == 3;
    assert |ii[0]| == 1 && |ii[1]| == 1;
    Record(Splat(ff[0][0], ff[0][1], ff[1][0], ii[0][0], ff[2][0], ff[2][1], ff[2][2], ff[3][0], ii[1][0]),
           ff[4][0], Color(ff[5][0], ff[5][1], ff[5][2]))
  }

  /**
   * Splitting one float row and one int row by the field widths and reading
   * the fields back; a row of the wrong length cannot be split.
   */
  function Unpack(f: seq<real>, i: seq<int>): (rec: Option<Record>)
    ensures rec.Some? <==> |f| == 11 && |i| == 2
  {
    SumWidths();
    var ff, ii := SplitRow(f, FloatWidths), SplitRow(i, IntWidths);
    if ff.Some? && ii.Some? then Some(FromFields(ff.value, ii.value)) else None
  }

  lemma SumWidths()
    ensures Sum(FloatWidths) == 11 && Sum(IntWidths) == 2
  {
    assert [2, 1, 3, 1, 1, 3][..5] == [2, 1, 3, 1, 1];
    assert [2, 1, 3, 1, 1][..4] == [2, 1, 3, 1];
    assert [2, 1, 3, 1][..3] == [2, 1, 3];
    assert [2, 1, 3][..2] == [2, 1];
    assert [2, 1][..1] == [2];
    assert Sum([2]) == 2;
    assert Sum([2, 1]) == 3;
    assert Sum([2, 1, 3]) == 6;
    assert Sum([2, 1, 3, 1]) == 7;
    assert Sum([2, 1, 3, 1, 1]) == 8;
    assert [1, 1][..1] == [1];
    assert Sum([1]) == 1;
  }

  /**
   * Splitting a packed row by the field widths returns exactly the packed
   * fields, and reading them back gives the record that was packed.
   */
  lemma UnpackPack(rec: Record)
    ensures SplitRow(PackFloat(rec), FloatWidths) == Some(FloatFields(rec))
    ensures SplitRow(PackInt(rec), IntWidths) == Some(IntFields(rec))
    ensures Unpack(PackFloat(rec), PackInt(rec)) == Some(rec)
  {
    var ff, ii := FloatFields(rec), IntFields(rec);
    assert SplitRow(PackFloat(rec), FloatWidths) == Some(ff) by {
      SplitFlatten(ff);
      FieldWidths(rec);
    }
    assert SplitRow(PackInt(rec), IntWidths) == Some(ii) by {
      SplitFlatten(ii);
      FieldWidths(rec);
    }
    assert FromFields(ff, ii) == rec;
  }

  /** The fields of every record have the field widths. */
  lemma FieldWidths(rec: Record)
    ensures Lengths(FloatFields(rec)) == FloatWidths && Lengths(IntFields(rec)) == IntWidths
  {
    var ff, ii := FloatFields(rec), IntFields(rec);
    assert Lengths(ff) == [|ff[0]|, |ff[1]|, |ff[2]|, |ff[3]|, |ff[4]|, |ff[5]|];
    assert Lengths(ii) == [|ii[0]|, |ii[1]|];
  }

  /** Fields of the right widths are the fields of the record read from them. */
  lemma FieldsOfFromFields(ff: seq<seq<real>>, ii: seq<seq<int>>)
    requires Lengths(ff) == FloatWidths && Lengths(ii) == IntWidths
    ensures FloatFields(FromFields(ff, ii)) == ff && IntFields(FromFields(ff, ii)) == ii
  {
    var rec := FromFields(ff, ii);
    assert |ff[0]| == 2 && |ff[1]| == 1 && |ff[2]| == 3 && |ff[3]| == 1 && |ff[4]| == 1 && |ff[5]| == 3;
    assert |ii[0]| == 1 && |ii[1]| == 1;
    assert ff[0] == [ff[0][0], ff[0][1]];
    assert ff[1] == [ff[1][0]] && ff[3] == [ff[3][0]] && ff[4] == [ff[4][0]];
    assert ff[2] == [ff[2][0], ff[2][1], ff[2][2]];
    assert ff[5] == [ff[5][0], ff[5][1], ff[5][2]];
    assert ii[0] == [ii[0][0]] && ii[1] == [ii[1][0]];
    assert ff == [ff[0], ff[1], ff[2], ff[3], ff[4], ff[5]];
    assert ii == [ii[0], ii[1]];
  }

  /** A pair of rows that reads back as a record is that record's packing. */
  lemma PackUnpack(f: seq<real>, i: seq<int>)
    requires Unpack(f, i).Some?
    ensures PackFloat(Unpack(f, i).value) == f && PackInt(Unpack(f, i).value) == i
  {
    var ff, ii := SplitRow(f, FloatWidths).value, SplitRow(i, IntWidths).value;
    FieldsOfFromFields(ff, ii);
  }

  /**
   * `torch.split` of the received float and int tensors into their fields,
   * row by row; fails when the two disagree in length or a row has the
   * wrong width.
   */
  function SplitFields(fs: seq<seq<real>>, ns: seq<seq<int>>): (recs: Option<seq<Record>>)
    ensures recs.Some? ==> |recs.value| == |fs|
  {
    if |fs| == |ns| && forall k :: 0 <= k < |fs| ==> Unpack(fs[k], ns[k]).Some? then
      Some(seq(|fs|, k requires 0 <= k < |fs| => Unpack(fs[k], ns[k]).value))
    else None
  }

  /** Splitting the packed rows of a batch gives back the batch. */
  lemma SplitFieldsPacked(recs: seq<Record>)
    ensures SplitFields(Map(PackFloat, recs), Map(PackInt, recs)) == Some(recs)
  {
    var fs, ns := Map(PackFloat, recs), Map(PackInt, recs);
    forall k | 0 <= k < |recs|
      ensures Unpack(fs[k], ns[k]) == Some(recs[k])
    {
      UnpackPack(recs[k]);
    }
    assert seq(|fs|, k requires 0 <= k < |fs| => Unpack(fs[k], ns[k]).value) == recs;
  }

  // ---------------------------------------------------------------------
  // What is sent and what is received
  // ---------------------------------------------------------------------

  /** `radii > 0`: the particles visible from a camera. */
  function VisibleMask(splats: seq<Splat>): (mask: seq<bool>)
    ensures |mask| == |splats|
  {
    seq(|splats|, i requires 0 <= i < |splats| => splats[i].radius > 0)
  }

  /** The visibility mask of every member for every camera. */
  function VisibleMasks(members: seq<MemberView>): (masks: seq<seq<seq<bool>>>)
    requires AllWellFormed(members)
    ensures |masks| == |members|
  {
    seq(|members|, s requires 0 <= s < |members| =>
      seq(|members|, c requires 0 <= c < |members| => VisibleMask(members[s].projections[c])))
  }

  /** Every particle of member m with its data for the camera of member c. */
  function Records(m: MemberView, w: nat, c: nat): (recs: seq<Record>)
    requires WellFormed(m, w) && c < w
    ensures |recs| == |m.opacities|
  {
    seq(|m.opacities|, i requires 0 <= i < |m.opacities| =>
      Record(m.projections[c][i], m.opacities[i], m.colors[c][i]))
  }

  /** The records member m sends for the camera of member c: its visible particles, in order. */
  function Sent(m: MemberView, w: nat, c: nat): seq<Record>
    requires WellFormed(m, w) && c < w
  {
    Masked(Records(m, w, c), VisibleMask(m.projections[c]))
  }

  /** What every member announces: its number of visible particles per camera. */
  function VisibleCounts(members: seq<MemberView>): (counts: seq<seq<nat>>)
    requires AllWellFormed(members)
    ensures |counts| == |members| && Rectangular(counts, |members|)
  {
    seq(|members|, s requires 0 <= s < |members| =>
      seq(|members|, c requires 0 <= c < |members| => CountTrue(VisibleMask(members[s].projections[c]))))
  }

  /** What member r rasterizes: the records sent for its camera, concatenated in rank order. */
  function Merged(members: seq<MemberView>, r: nat): seq<Record>
    requires AllWellFormed(members) && r < |members|
  {
    Flatten(seq(|members|, s requires 0 <= s < |members| => Sent(members[s], |members|, r)))
  }

  // ---------------------------------------------------------------------
  // Lemmas
  // ---------------------------------------------------------------------

  /** Every record member r rasterizes is visible: its radius is positive. */
  lemma MergedVisible(members: seq<MemberView>, r: nat, x: Record)
    requires AllWellFormed(members) && r < |members| && x in Merged(members, r)
    ensures x.splat.radius > 0
  {
    var s, i := MergedOrigin(members, r, x);
  }

  /**
   * Every record member r rasterizes is the data of some particle i of some
   * member s for member r's camera, and that particle is visible.
   */
  lemma MergedOrigin(members: seq<MemberView>, r: nat, x: Record) returns (s: nat, i: nat)
    requires AllWellFormed(members) && r < |members| && x in Merged(members, r)
    ensures s < |members| && i < |members[s].opacities|
    ensures x == Records(members[s], |members|, r)[i] && members[s].projections[r][i].radius > 0
  {
    var w := |members|;
    var parts := seq(w, q requires 0 <= q < w => Sent(members[q], w, r));
    var j := FlattenMember(parts, x);
    s := j;
    i := MaskedMember(Records(members[s], w, r), VisibleMask(members[s].projections[r]), x);
  }

  /**
   * Conversely, the data of every visible particle of every member for the
   * camera of member r reaches member r.
   */
  lemma MergedComplete(members: seq<MemberView>, r: nat, s: nat, i: nat)
    requires AllWellFormed(members) && r < |members| && s < |members|
    requires i < |members[s].opacities| && members[s].projections[r][i].radius > 0
    ensures Records(members[s], |members|, r)[i] in Merged(members, r)
  {
    var w := |members|;
    var parts := seq(w, q requires 0 <= q < w => Sent(members[q], w, r));
    MaskedKeeps(Records(members[s], w, r), VisibleMask(members[s].projections[r]), i);
    FlattenContains(parts, s, Records(members[s], w, r)[i]);
  }

  /**
   * Member r receives exactly as many records as the counts it gathered
   * announce, summed over the senders.
   */
  lemma MergedLength(members: seq<MemberView>, r: nat)
    requires AllWellFormed(members) && r < |members|
    ensures |Merged(members, r)| == Sum(ExchangeSizes(VisibleCounts(members))[r])
  {
    var w := |members|;
    var parts := seq(w, s requires 0 <= s < w => Sent(members[s], w, r));
    FlattenLength(parts);
    assert Lengths(parts) == ExchangeSizes(VisibleCounts(members))[r];
  }

  /**
   * The merge keeps the senders apart: splitting what member r rasterizes
   * by the counts it gathered gives back, in rank order, the visible records
   * each member sent for r's camera.
   */
  lemma MergedSplitsBySource(members: seq<MemberView>, r: nat)
    requires AllWellFormed(members) && r < |members|
    ensures SplitRow(Merged(members, r), ExchangeSizes(VisibleCounts(members))[r])
            == Some(seq(|members|, s requires 0 <= s < |members| => Sent(members[s], |members|, r)))
  {
    var w := |members|;
    var parts := seq(w, s requires 0 <= s < w => Sent(members[s], w, r));
    SplitFlatten(parts);
    assert Lengths(parts) == ExchangeSizes(VisibleCounts(members))[r];
  }

  // ---------------------------------------------------------------------
  // The exchange
  // ---------------------------------------------------------------------

  /**
   * The input lists one member builds, camera by camera: the packed float
   * rows and int rows of its visible particles.
   */
  method BuildInputs(m: MemberView, w: nat) returns (floats: seq<seq<seq<real>>>, ints: seq<seq<seq<int>>>)
    requires WellFormed(m, w)
    ensures |floats| == w && |ints| == w
    ensures forall c :: 0 <= c < w ==>
      floats[c] == Map(PackFloat, Sent(m, w, c)) && ints[c] == Map(PackInt, Sent(m, w, c))
  {
    floats, ints := [], [];
    for c := 0 to w
      invariant |floats| == c && |ints| == c
      invariant forall q :: 0 <= q < c ==>
        floats[q] == Map(PackFloat, Sent(m, w, q)) && ints[q] == Map(PackInt, Sent(m, w, q))
    {
      var recs := Records(m, w, c);
      var mask := VisibleMask(m.projections[c]);
      var floatTensor := Masked(Map(PackFloat, recs), mask);
      var intTensor := Masked(Map(PackInt, recs), mask);
      MaskedMap(PackFloat, recs, mask);
      MaskedMap(PackInt, recs, mask);
      floats := floats + [floatTensor];
      ints := ints + [intTensor];
    }
  }

  /**
   * The buffers pre-sized by the gathered counts fit what every member
   * sends, so neither exchange can fail.
   */
  lemma InputsFit<T>(members: seq<MemberView>, inputs: seq<seq<seq<T>>>)
    requires AllWellFormed(members) && |inputs| == |members| && Rectangular(inputs, |members|)
    requires forall s, c :: 0 <= s < |members| && 0 <= c < |members| ==>
      |inputs[s][c]| == |Sent(members[s], |members|, c)|
    ensures CapacitiesFit(inputs, ExchangeSizes(VisibleCounts(members)))
  {
  }

  /** The input lists of every member: what member s sends to member c. */
  method BuildAllInputs(members: seq<MemberView>)
    returns (floatIn: seq<seq<seq<seq<real>>>>, intIn: seq<seq<seq<seq<int>>>>)
    requires AllWellFormed(members)
    ensures |floatIn| == |members| && |intIn| == |members|
    ensures Rectangular(floatIn, |members|) && Rectangular(intIn, |members|)
    ensures forall s, c :: 0 <= s < |members| && 0 <= c < |members| ==>
      floatIn[s][c] == Map(PackFloat, Sent(members[s], |members|, c)) &&
      intIn[s][c] == Map(PackInt, Sent(members[s], |members|, c))
  {
    var w := |members|;
    floatIn, intIn := [], [];
    for s := 0 to w
      invariant |floatIn| == s && |intIn| == s
      invariant forall q :: 0 <= q < s ==> |floatIn[q]| == w && |intIn[q]| == w
      invariant forall q, c :: 0 <= q < s && 0 <= c < w ==>
        floatIn[q][c] == Map(PackFloat, Sent(members[q], w, c)) &&
        intIn[q][c] == Map(PackInt, Sent(members[q], w, c))
    {
      var floats, ints := BuildInputs(members[s], w);
      floatIn := floatIn + [floats];
      intIn := intIn + [ints];
    }
  }

  /**
   * The receiving side: member r concatenates what it received from every
   * member and splits the rows back into particles.
   */
  method MergeReceived(members: seq<MemberView>, floatOut: seq<seq<seq<seq<real>>>>, intOut: seq<seq<seq<seq<int>>>>)
    returns (merged: seq<seq<Record>>)
    requires AllWellFormed(members)
    requires |floatOut| == |members| && |intOut| == |members|
    requires Rectangular(floatOut, |members|) && Rectangular(intOut, |members|)
    requires forall r, s :: 0 <= r < |members| && 0 <= s < |members| ==>
      floatOut[r][s] == Map(PackFloat, Sent(members[s], |members|, r)) &&
      intOut[r][s] == Map(PackInt, Sent(members[s], |members|, r))
    ensures |merged| == |members|
    ensures forall r :: 0 <= r < |members| ==> merged[r] == Merged(members, r)
  {
    merged := [];
    for r := 0 to |members|
      invariant |merged| == r
      invariant forall q :: 0 <= q < r ==> merged[q] == Merged(members, q)
    {
      var floatTensor := Flatten(floatOut[r]);
      var intTensor := Flatten(intOut[r]);
      ReceivedPacked(members, floatOut[r], intOut[r], r);
      merged := merged + [SplitFields(floatTensor, intTensor).value];
    }
  }

  /**
   * `rasterizer_required_data_all2all`, run by every member in lock-step:
   * masks, the count exchange, the input lists, the two row exchanges into
   * buffers pre-sized by the counts, and the concatenation and split on the
   * receiving side.
   */
  method RasterizerRequiredDataAll2All(members: seq<MemberView>)
    returns (merged: seq<seq<Record>>, masks: seq<seq<seq<bool>>>)
    requires AllWellFormed(members)
    ensures masks == VisibleMasks(members)
    ensures |merged| == |members|
    ensures forall r :: 0 <= r < |members| ==> merged[r] == Merged(members, r)
  {
    masks := VisibleMasks(members);
    var gathered := ExchangeSizes(VisibleCounts(members));
    var floatIn, intIn := BuildAllInputs(members);
    InputsFit(members, floatIn);
    InputsFit(members, intIn);
    var floatOut := ExchangeVariable(floatIn, gathered).value;
    var intOut := ExchangeVariable(intIn, gathered).value;
    merged := MergeReceived(members, floatOut, intOut);
  }

  /** What member r received, concatenated, is the packing of `Merged`. */
  lemma ReceivedPacked(members: seq<MemberView>, floats: seq<seq<seq<real>>>, ints: seq<seq<seq<int>>>, r: nat)
    requires AllWellFormed(members) && r < |members|
    requires |floats| == |ints| == |members|
    requires forall s :: 0 <= s < |members| ==>
      floats[s] == Map(PackFloat, Sent(members[s], |members|, r)) &&
      ints[s] == Map(PackInt, Sent(members[s], |members|, r))
    ensures SplitFields(Flatten(floats), Flatten(ints)) == Some(Merged(members, r))
  {
    var w := |members|;
    var parts := seq(w, s requires 0 <= s < w => Sent(members[s], w, r));
    FlattenMap(PackFloat, parts);
    FlattenMap(PackInt, parts);
    assert floats == seq(w, s requires 0 <= s < w => Map(PackFloat, parts[s]));
    assert ints == seq(w, s requires 0 <= s < w => Map(PackInt, parts[s]));
    SplitFieldsPacked(Merged(members, r));
  }

  // ---------------------------------------------------------------------
  // Cameras
  // ---------------------------------------------------------------------

  /**
   * A camera of the dataset, with what the projection and the shading read
   * of it: the world-to-camera matrix (row-major), the intrinsics, the image
   * size and the camera centre. Two viewpoints that differ in any of these
   * are different cameras.
   */
  datatype Camera = Camera(worldToCamera: seq<real>, fx: real, fy: real, cx: real, cy: real,
                           height: nat, width: nat, center: seq<real>)

  /** The training cameras while training, the validation cameras otherwise. */
  function CameraSet(training: bool, trainCameras: seq<Camera>, valCameras: seq<Camera>): seq<Camera>
  {
    if training then trainCameras else valCameras
  }

  /**
   * The camera lookup of `forward`: every gathered id is looked up in the
   * camera set, in rank order; an id past the end of the set fails.
   */
  method GatherCameras(ids: seq<nat>, cameras: seq<Camera>) returns (gathered: Option<seq<Camera>>)
    ensures gathered.Some? <==> forall i :: 0 <= i < |ids| ==> ids[i] < |cameras|
    ensures gathered.Some? ==>
      |gathered.value| == |ids| && forall i :: 0 <= i < |ids| ==> gathered.value[i] == cameras[ids[i]]
  {
    var cams: seq<Camera> := [];
    for i := 0 to |ids|
      invariant |cams| == i
      invariant forall q :: 0 <= q < i ==> ids[q] < |cameras| && cams[q] == cameras[ids[q]]
    {
      if ids[i] >= |cameras| {
        return None;
      }
      cams := cams + [cameras[ids[i]]];
    }
    gathered := Some(cams);
  }

  /** What member r renders: its own camera and the records merged for it. */
  datatype Frame = Frame(camera: Camera, records: seq<Record>)

  /**
   * The views every member builds from the gathered cameras: member s
   * projects and shades its own particles for the camera of every member c.
   */
  function Views(cams: seq<Camera>, opacities: seq<seq<real>>,
                 project: (nat, Camera) -> seq<Splat>, shade: (nat, Camera) -> seq<Color>): (views: seq<MemberView>)
    requires |opacities| == |cams|
    requires forall s, c :: 0 <= s < |cams| && 0 <= c < |cams| ==>
      |project(s, cams[c])| == |opacities[s]| && |shade(s, cams[c])| == |opacities[s]|
    ensures |views| == |cams| && AllWellFormed(views)
  {
    seq(|cams|, s requires 0 <= s < |cams| =>
      MemberView(seq(|cams|, c requires 0 <= c < |cams| => project(s, cams[c])),
                 seq(|cams|, c requires 0 <= c < |cams| => shade(s, cams[c])),
                 opacities[s]))
  }

  /** Member r's frame: the camera it announced and the records merged for it. */
  method PairFrames(cams: seq<Camera>, merged: seq<seq<Record>>) returns (out: seq<Frame>)
    requires |merged| == |cams|
    ensures |out| == |cams|
    ensures forall r :: 0 <= r < |cams| ==> out[r].camera == cams[r] && out[r].records == merged[r]
  {
    out := [];
    for r := 0 to |cams|
      invariant |out| == r
      invariant forall q :: 0 <= q < r ==> out[q] == Frame(cams[q], merged[q])
    {
      out := out + [Frame(cams[r], merged[r])];
    }
  }

  /**
   * The distributed part of `forward`, for every member in lock-step: the
   * camera ids are all-gathered, every member looks up every member's
   * camera, projects and shades its particles for each, and the visible
   * records are exchanged. Member r then renders the camera it announced,
   * `gathered[r]`, from the records merged for it.
   */
  method Forward(ids: seq<nat>, training: bool, trainCameras: seq<Camera>, valCameras: seq<Camera>,
                 opacities: seq<seq<real>>,
                 project: (nat, Camera) -> seq<Splat>, shade: (nat, Camera) -> seq<Color>)
    returns (frames: Option<seq<Frame>>)
    requires |opacities| == |ids|
    requires forall s, cam :: 0 <= s < |ids| ==>
      |project(s, cam)| == |opacities[s]| && |shade(s, cam)| == |opacities[s]|
    ensures frames.Some? <==> forall r :: 0 <= r < |ids| ==> ids[r] < |CameraSet(training, trainCameras, valCameras)|
    ensures frames.Some? ==>
      var cameras := CameraSet(training, trainCameras, valCameras);
      var cams := seq(|ids|, r requires 0 <= r < |ids| && ids[r] < |cameras| => cameras[ids[r]]);
      |frames.value| == |ids| &&
      forall r :: 0 <= r < |ids| ==>
        frames.value[r].camera == cameras[ids[r]] &&
        frames.value[r].records == Merged(Views(cams, opacities, project, shade), r)
  {
    var cameras := CameraSet(training, trainCameras, valCameras);
    var gathered := GatherCameras(ids, cameras);
    if gathered.None? {
      return None;
    }
    var cams := gathered.value;
    var views := Views(cams, opacities, project, shade);
    var merged, masks := RasterizerRequiredDataAll2All(views);
    var out := PairFrames(cams, merged);
    assert cams == seq(|ids|, r requires 0 <= r < |ids| && ids[r] < |cameras| => cameras[ids[r]]);
    frames := Some(out);
  }
}
