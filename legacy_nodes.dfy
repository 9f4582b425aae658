/** The render nodes of `chest/src/node.rs`, written against an earlier
 *  renderer interface: the shadow-mapping node, which gives every camera of
 *  every light a layer of one of two depth-map arrays and a slot of one
 *  uniform buffer, and the PBR node, which lays the uniforms of the queued
 *  meshes' materials out in one buffer.
 *
 *  Lights are listed in the scene map's iteration order (a parameter), by
 *  id and kind; the bytes of a light's cameras are a parameter. Texture
 *  views are the layer they select; pipelines and bind groups other than
 *  the light-view group are not modelled. */
module LegacyNodes {
  import opened Common
  import opened Buffers
  import RS = RenderScene
  import CM = ChestMaterial
  import Color
  import Flow

  type Uuid = nat

  // ---------------------------------------------------------------------
  // Lights and their shadow-map layers.

  datatype LightKind = Directional | Point | Spot

  /** How many cameras `as_cameras` gives a light: one for a directional
   *  light, one per cube face for point and spot lights. */
  function CameraCount(k: LightKind): (n: nat)
    ensures n == 1 || n == 6
    ensures n == 6 <==> !k.Directional?
  {
    if k.Directional? then 1 else 6
  }

  /** How many of the lights are of kind `k`. */
  function CountOf(lights: seq<(Uuid, LightKind)>, k: LightKind): (n: nat)
    ensures n <= |lights|
  {
    if lights == [] then 0
    else CountOf(lights[..|lights| - 1], k) + (if lights[|lights| - 1].1 == k then 1 else 0)
  }

  /** Array layers of the directional map made by `build`: one per
   *  directional light, and at least one. */
  function DirectionalMapLayers(dirs: nat): (n: nat)
    ensures n >= 1 && n >= dirs
    ensures dirs > 0 ==> n == dirs
  {
    if dirs < 1 then 1 else dirs
  }

  /** Array layers of the point map as `build` sizes it: six per point
   *  light, and at least six. Spot lights are not counted. */
  function PointMapLayers(points: nat): (n: nat)
    ensures n >= 6 && n % 6 == 0 && n >= 6 * points
    ensures points > 0 ==> n == 6 * points
  {
    if 6 * points < 6 then 6 else 6 * points
  }

  /** The point map sized for the lights `prepare` places in it: six
   *  layers per point and per spot light, and at least six. */
  function PointMapLayersFixed(points: nat, spots: nat): (n: nat)
    ensures n >= 6 * (points + spots) && n >= PointMapLayers(points)
    ensures spots == 0 ==> n == PointMapLayers(points)
  {
    PointMapLayers(points + spots)
  }

  /** A layer of the directional map, or of the point map. */
  datatype ShadowView = DirectionalLayer(layer: nat) | PointLayer(layer: nat)

  /** The bytes of a light's first `count` cameras, back to back. */
  function CameraBytes(id: Uuid, count: nat, camera: (Uuid, nat) -> seq<byte>): seq<byte> {
    if count == 0 then [] else CameraBytes(id, count - 1, camera) + camera(id, count - 1)
  }

  /** The view of camera `i` of a light that is the `n`-th in its map:
   *  every camera of a directional light shares its layer, face `i` of a
   *  point or spot light has layer `6 n + i`. */
  function ViewOf(k: LightKind, n: nat, i: nat): ShadowView {
    if k.Directional? then DirectionalLayer(n) else PointLayer(6 * n + i)
  }

  /** The views `prepare` records for a light whose cameras are pushed
   *  after `start` bytes: each with the offset its push returned. */
  function LightViews(id: Uuid, k: LightKind, n: nat, start: nat, camera: (Uuid, nat) -> seq<byte>): seq<(ShadowView, nat)> {
    seq(CameraCount(k), i requires 0 <= i < CameraCount(k) => CameraView(id, k, n, start, camera, i))
  }

  /** The view of camera `i` and the offset of its bytes. */
  function CameraView(id: Uuid, k: LightKind, n: nat, start: nat, camera: (Uuid, nat) -> seq<byte>, i: nat): (ShadowView, nat) {
    (ViewOf(k, n, i), AsU32(start + |CameraBytes(id, i, camera)|))
  }

  /** The index of a light in its map, given the lights before it: point
   *  and spot lights share one counter. */
  function IndexAmong(before: seq<(Uuid, LightKind)>, k: LightKind): nat {
    if k.Directional? then CountOf(before, Directional) else CountOf(before, Point) + CountOf(before, Spot)
  }

  /** What `prepare` has built after some lights: the views per light id
   *  and the light-view buffer's bytes. */
  datatype ShadowPrep = ShadowPrep(views: map<Uuid, seq<(ShadowView, nat)>>, raw: seq<byte>)

  function PreparedViews(lights: seq<(Uuid, LightKind)>, camera: (Uuid, nat) -> seq<byte>): (r: ShadowPrep)
    ensures forall id :: id in r.views ==> |r.views[id]| == 1 || |r.views[id]| == 6
  {
    if lights == [] then ShadowPrep(map[], [])
    else
      var m := |lights| - 1;
      var p := PreparedViews(lights[..m], camera);
      var id := lights[m].0;
      var k := lights[m].1;
      ShadowPrep(p.views[id := LightViews(id, k, IndexAmong(lights[..m], k), |p.raw|, camera)],
                 p.raw + CameraBytes(id, CameraCount(k), camera))
  }

  /** One more light: its views and its cameras' bytes. */
  lemma PreparedStep(lights: seq<(Uuid, LightKind)>, camera: (Uuid, nat) -> seq<byte>, i: nat)
    requires i < |lights|
    ensures var p := PreparedViews(lights[..i], camera);
      var id := lights[i].0;
      var k := lights[i].1;
      PreparedViews(lights[..i + 1], camera)
        == ShadowPrep(p.views[id := LightViews(id, k, IndexAmong(lights[..i], k), |p.raw|, camera)],
                      p.raw + CameraBytes(id, CameraCount(k), camera))
    ensures CountOf(lights[..i + 1], Directional) == CountOf(lights[..i], Directional) + (if lights[i].1.Directional? then 1 else 0)
    ensures CountOf(lights[..i + 1], Point) + CountOf(lights[..i + 1], Spot)
         == CountOf(lights[..i], Point) + CountOf(lights[..i], Spot) + (if lights[i].1.Directional? then 0 else 1)
  {
    assert lights[..i + 1][..i] == lights[..i];
    assert lights[..i + 1][i] == lights[i];
  }

  /** The light-view buffer `prepare` leaves: a fresh buffer for uniforms
   *  and storage, the cameras pushed, written. */
  function LightViewBuffer(lights: seq<(Uuid, LightKind)>, camera: (Uuid, nat) -> seq<byte>): BufferState {
    DynamicWritten(BufferState(PreparedViews(lights, camera).raw, None, true, {UNIFORM, STORAGE}))
  }

  predicate DistinctIds(lights: seq<(Uuid, LightKind)>) {
    forall i, j :: 0 <= i < j < |lights| ==> lights[i].0 != lights[j].0
  }

  /** Every light has views, and nothing else. */
  lemma {:induction false} PreparedKeys(lights: seq<(Uuid, LightKind)>, camera: (Uuid, nat) -> seq<byte>)
    ensures PreparedViews(lights, camera).views.Keys == set i | 0 <= i < |lights| :: lights[i].0
  {
    if lights != [] {
      var m := |lights| - 1;
      PreparedKeys(lights[..m], camera);
      assert forall i :: 0 <= i < m ==> lights[..m][i] == lights[i];
    }
  }

  /** The views of the `k`-th light are those it was given when it was
   *  reached: later lights, whose ids differ, do not replace them, and the
   *  bytes pushed before it are all that later lights append to. */
  lemma {:induction false} PreparedLookup(lights: seq<(Uuid, LightKind)>, camera: (Uuid, nat) -> seq<byte>, k: nat)
    requires DistinctIds(lights) && k < |lights|
    ensures var before := PreparedViews(lights[..k], camera);
      && lights[k].0 in PreparedViews(lights, camera).views
      && PreparedViews(lights, camera).views[lights[k].0]
         == LightViews(lights[k].0, lights[k].1, IndexAmong(lights[..k], lights[k].1), |before.raw|, camera)
      && before.raw + CameraBytes(lights[k].0, CameraCount(lights[k].1), camera) <= PreparedViews(lights, camera).raw
  {
    var m := |lights| - 1;
    if k < m {
      var init := lights[..m];
      assert init[..k] == lights[..k];
      assert init[k] == lights[k];
      PreparedLookup(init, camera, k);
    } else {
      assert lights[..k] == lights[..m];
    }
  }

  /** The kinds counted over a prefix never exceed those of the whole,
   *  and the light at the prefix's end is counted too. */
  lemma {:induction false} CountPrefix(lights: seq<(Uuid, LightKind)>, k: nat, kind: LightKind)
    requires k < |lights|
    ensures CountOf(lights[..k], kind) + (if lights[k].1 == kind then 1 else 0) <= CountOf(lights, kind)
  {
    var m := |lights| - 1;
    if k < m {
      assert lights[..m][..k] == lights[..k];
      assert lights[..m][k] == lights[k];
      CountPrefix(lights[..m], k, kind);
    } else {
      assert lights[..k] == lights[..m];
    }
  }

  /** The `n`-th directional light draws into layer `n` with each of its
   *  views; face `i` of the `n`-th point-or-spot light into layer
   *  `6 n + i`. */
  lemma PreparedLayers(lights: seq<(Uuid, LightKind)>, camera: (Uuid, nat) -> seq<byte>, k: nat)
    requires DistinctIds(lights) && k < |lights|
    ensures lights[k].0 in PreparedViews(lights, camera).views
    ensures var vs := PreparedViews(lights, camera).views[lights[k].0];
      && |vs| == CameraCount(lights[k].1)
      && (lights[k].1.Directional? ==> forall i :: 0 <= i < |vs| ==> vs[i].0 == DirectionalLayer(CountOf(lights[..k], Directional)))
      && (!lights[k].1.Directional? ==> forall i :: 0 <= i < |vs| ==>
            vs[i].0 == PointLayer(6 * (CountOf(lights[..k], Point) + CountOf(lights[..k], Spot)) + i))
  {
    PreparedLookup(lights, camera, k);
  }

  /** With the point map sized for point and spot lights, every view
   *  `prepare` makes lies inside its map. */
  lemma LayersFit(lights: seq<(Uuid, LightKind)>, camera: (Uuid, nat) -> seq<byte>, k: nat)
    requires DistinctIds(lights) && k < |lights|
    ensures lights[k].0 in PreparedViews(lights, camera).views
    ensures var vs := PreparedViews(lights, camera).views[lights[k].0];
      forall i :: 0 <= i < |vs| ==> match vs[i].0
        case DirectionalLayer(l) => l < DirectionalMapLayers(CountOf(lights, Directional))
        case PointLayer(l) => l < PointMapLayersFixed(CountOf(lights, Point), CountOf(lights, Spot))
  {
    PreparedLayers(lights, camera, k);
    CountPrefix(lights, k, Directional);
    CountPrefix(lights, k, Point);
    CountPrefix(lights, k, Spot);
    var n := CountOf(lights[..k], Point) + CountOf(lights[..k], Spot);
    if !lights[k].1.Directional? {
      assert n + 1 <= CountOf(lights, Point) + CountOf(lights, Spot);
      assert 6 * n + 5 < 6 * (CountOf(lights, Point) + CountOf(lights, Spot));
    }
  }

  /** As written, the point map has too few layers once spot lights come
   *  after point lights: with one point and one spot light, the spot's
   *  first face asks for layer 6 of a six-layer map. */
  lemma PointMapTooSmall(camera: (Uuid, nat) -> seq<byte>)
    ensures var lights := [(0, Point), (1, Spot)];
      && DistinctIds(lights)
      && PreparedViews(lights, camera).views[1][0].0 == PointLayer(6)
      && PointMapLayers(CountOf(lights, Point)) == 6
  {
    var lights := [(0, Point), (1, Spot)];
    assert lights[..1] == [(0, Point)];
    assert [(0, Point)][..0] == [];
    assert CountOf([(0, Point)], Point) == 1;
    assert CountOf([(0, Point)], Spot) == 0;
    assert CountOf(lights, Point) == 1;
  }

  /** Each recorded offset is where that camera's bytes start in the
   *  uploaded light-view buffer (while the buffer is shorter than 4 GiB,
   *  so that the `u32` offsets do not wrap). */
  lemma OffsetsLocateCameras(lights: seq<(Uuid, LightKind)>, camera: (Uuid, nat) -> seq<byte>, k: nat, i: nat)
    requires DistinctIds(lights) && k < |lights| && i < CameraCount(lights[k].1)
    requires |PreparedViews(lights, camera).raw| < 0x1_0000_0000
    ensures lights[k].0 in PreparedViews(lights, camera).views
    ensures |PreparedViews(lights, camera).views[lights[k].0]| == CameraCount(lights[k].1)
    ensures var raw := PreparedViews(lights, camera).raw;
      var off := PreparedViews(lights, camera).views[lights[k].0][i].1;
      var c := camera(lights[k].0, i);
      off + |c| <= |raw| && raw[off..off + |c|] == c
  {
    var id := lights[k].0;
    var before := PreparedViews(lights[..k], camera).raw;
    var raw := PreparedViews(lights, camera).raw;
    PreparedLookup(lights, camera, k);
    CameraBytesPrefix(id, i + 1, CameraCount(lights[k].1), camera);
    PrefixChain(before, CameraBytes(id, i + 1, camera), CameraBytes(id, CameraCount(lights[k].1), camera), raw);
    var head := before + CameraBytes(id, i, camera);
    assert before + CameraBytes(id, i + 1, camera) == head + camera(id, i);
    SliceOfPrefix(head, camera(id, i), raw);
  }

  /** A prefix of a prefix, after the same head. */
  lemma PrefixChain(head: seq<byte>, x: seq<byte>, y: seq<byte>, whole: seq<byte>)
    requires x <= y && head + y <= whole
    ensures head + x <= whole
  {
    assert (head + y)[..|head + x|] == head + x;
  }

  /** What follows a head inside a sequence that starts with both. */
  lemma SliceOfPrefix(head: seq<byte>, c: seq<byte>, whole: seq<byte>)
    requires head + c <= whole
    ensures |head| + |c| <= |whole| && whole[|head|..|head| + |c|] == c
  {
    assert whole[|head|..|head| + |c|] == (head + c)[|head|..];
  }

  lemma {:induction false} CameraBytesPrefix(id: Uuid, i: nat, n: nat, camera: (Uuid, nat) -> seq<byte>)
    requires i <= n
    ensures CameraBytes(id, i, camera) <= CameraBytes(id, n, camera)
  {
    if i < n {
      CameraBytesPrefix(id, i, n - 1, camera);
    }
  }

  // ---------------------------------------------------------------------
  // Drawing the shadow passes.

  /** One shadow pass: the layer it clears and renders, the light-view
   *  offset it binds, and the vertex count of each queued mesh. */
  datatype ShadowPass = ShadowPass(view: ShadowView, offset: nat, vertexCounts: seq<nat>)

  /** What `draw` does: submits its passes, returns before submitting,
   *  or panics. */
  datatype DrawOutcome = Submitted(passes: seq<ShadowPass>) | NothingSubmitted | DrawPanicked(p: Panic)

  /** The mesh loop of a pass: the vertex count of every queued mesh, in
   *  order. A mesh without a buffer ends `draw` (`None`); a buffer without
   *  a device buffer, or whose bytes are not whole vertices, panics. */
  function MeshDraws(meshes: seq<Uuid>, buffers: map<Uuid, BufferState>, stride: nat): (r: Result<Option<seq<nat>>, Panic>)
    requires stride > 0
    ensures r.Ok? && r.value.Some? ==> |r.value.value| == |meshes| && forall i :: 0 <= i < |meshes| ==> meshes[i] in buffers
    ensures r == Ok(None) ==> exists i :: 0 <= i < |meshes| && meshes[i] !in buffers
    ensures r.Err? ==> r.error == UnwrapNone
    ensures (forall i :: 0 <= i < |meshes| ==>
               (meshes[i] in buffers && buffers[meshes[i]].gpu.Some? && |buffers[meshes[i]].raw| % stride == 0))
            ==> r.Ok? && r.value.Some?
  {
    if meshes == [] then Ok(Some([]))
    else if meshes[0] !in buffers then Ok(None)
    else
      var b := buffers[meshes[0]];
      if b.gpu.None? || |b.raw| % stride != 0 then Err(UnwrapNone)
      else
        var rest := MeshDraws(meshes[1..], buffers, stride);
        if rest.Ok? && rest.value.Some? then Ok(Some([AsU32(|b.raw| / stride)] + rest.value.value))
        else rest
  }

  /** The passes of one light: one per view, each drawing every mesh. */
  function Passes(vs: seq<(ShadowView, nat)>, counts: seq<nat>): (ps: seq<ShadowPass>)
    ensures |ps| == |vs|
    ensures forall i :: 0 <= i < |vs| ==> ps[i].view == vs[i].0 && ps[i].offset == vs[i].1
  {
    seq(|vs|, i requires 0 <= i < |vs| => ShadowPass(vs[i].0, vs[i].1, counts))
  }

  /** The light loop of `draw`, once the pipeline exists: each light's
   *  views must be known (`unwrap`), and the first view reached runs the
   *  mesh loop, whose failure ends or panics `draw` before any submit. */
  function DrawLights(ids: seq<Uuid>, views: map<Uuid, seq<(ShadowView, nat)>>, meshes: Result<Option<seq<nat>>, Panic>): (r: DrawOutcome)
    ensures r.DrawPanicked? ==> r.p == UnwrapNone || (meshes.Err? && r.p == meshes.error)
    ensures r.NothingSubmitted? ==> meshes == Ok(None)
    ensures (forall i :: 0 <= i < |ids| ==> ids[i] !in views) && ids != [] ==> r == DrawPanicked(UnwrapNone)
  {
    if ids == [] then Submitted([])
    else if ids[0] !in views then DrawPanicked(UnwrapNone)
    else if views[ids[0]] == [] then DrawLights(ids[1..], views, meshes)
    else if meshes.Err? then DrawPanicked(meshes.error)
    else if meshes.value.None? then NothingSubmitted
    else
      var rest := DrawLights(ids[1..], views, meshes);
      if rest.Submitted? then Submitted(Passes(views[ids[0]], meshes.value.value) + rest.passes) else rest
  }

  /** When the mesh loop cannot finish, no pass is ever submitted. */
  lemma {:induction false} UnfinishedMeshesSubmitNothing(ids: seq<Uuid>, views: map<Uuid, seq<(ShadowView, nat)>>,
                                                         meshes: Result<Option<seq<nat>>, Panic>)
    ensures !(meshes.Ok? && meshes.value.Some?) && DrawLights(ids, views, meshes).Submitted?
            ==> DrawLights(ids, views, meshes).passes == []
  {
    if ids != [] && ids[0] in views && views[ids[0]] == [] {
      UnfinishedMeshesSubmitNothing(ids[1..], views, meshes);
    }
  }

  /** With every light's views known and the mesh loop finishing, every
   *  view of every light gets its pass, light after light. */
  lemma {:induction false} DrawLightsComplete(ids: seq<Uuid>, views: map<Uuid, seq<(ShadowView, nat)>>, counts: seq<nat>)
    requires forall i :: 0 <= i < |ids| ==> ids[i] in views
    ensures DrawLights(ids, views, Ok(Some(counts))) == Submitted(AllPasses(ids, views, counts))
  {
    if ids != [] {
      assert forall i :: 0 <= i < |ids| - 1 ==> ids[1..][i] == ids[i + 1];
      DrawLightsComplete(ids[1..], views, counts);
    }
  }

  /** Every view of every listed light, as passes, in order. */
  function AllPasses(ids: seq<Uuid>, views: map<Uuid, seq<(ShadowView, nat)>>, counts: seq<nat>): seq<ShadowPass>
    requires forall i :: 0 <= i < |ids| ==> ids[i] in views
  {
    if ids == [] then [] else Passes(views[ids[0]], counts) + AllPasses(ids[1..], views, counts)
  }

  // ---------------------------------------------------------------------
  // The shadow-mapping node.

  class ShadowMappingNode {
    /** Whether `build` made the pipeline. */
    var pipelineBuilt: bool
    /** `render_shadow_map_views`. */
    var views: map<Uuid, seq<(ShadowView, nat)>>

    /** `ShadowMappingNode::default()`. */
    constructor ()
      ensures !pipelineBuilt && views == map[]
    {
      pipelineBuilt := false;
      views := map[];
    }

    /** Pushes the cameras of one light, the `n`-th in its map, and
     *  returns its views with their offsets. */
    method PushLight(id: Uuid, k: LightKind, n: nat, buffer: DynamicGpuBuffer, camera: (Uuid, nat) -> seq<byte>,
                     ghost raw0: seq<byte>) returns (vs: seq<(ShadowView, nat)>)
      requires buffer.State() == BufferState(raw0, None, true, {UNIFORM, STORAGE})
      modifies buffer
      ensures buffer.State() == BufferState(raw0 + CameraBytes(id, CameraCount(k), camera), None, true, {UNIFORM, STORAGE})
      ensures vs == LightViews(id, k, n, |raw0|, camera)
    {
      vs := [];
      for i := 0 to CameraCount(k)
        invariant buffer.State() == BufferState(raw0 + CameraBytes(id, i, camera), None, true, {UNIFORM, STORAGE})
        invariant |vs| == i
        invariant forall j :: 0 <= j < i ==> vs[j] == CameraView(id, k, n, |raw0|, camera, j)
      {
        var offset := buffer.Push(camera(id, i));
        assert raw0 + CameraBytes(id, i + 1, camera) == raw0 + CameraBytes(id, i, camera) + camera(id, i);
        assert (ViewOf(k, n, i), offset) == CameraView(id, k, n, |raw0|, camera, i);
        vs := vs + [(ViewOf(k, n, i), offset)];
      }
    }

    /** One turn of the light loop, on light `i`. */
    method PushLightAt(lights: seq<(Uuid, LightKind)>, camera: (Uuid, nat) -> seq<byte>, buffer: DynamicGpuBuffer, i: nat,
                       directionalIndex: nat, pointIndex: nat) returns (directionalNext: nat, pointNext: nat)
      requires i < |lights|
      requires views == PreparedViews(lights[..i], camera).views
      requires buffer.State() == BufferState(PreparedViews(lights[..i], camera).raw, None, true, {UNIFORM, STORAGE})
      requires directionalIndex == CountOf(lights[..i], Directional)
      requires pointIndex == CountOf(lights[..i], Point) + CountOf(lights[..i], Spot)
      modifies this`views, buffer
      ensures views == PreparedViews(lights[..i + 1], camera).views
      ensures buffer.State() == BufferState(PreparedViews(lights[..i + 1], camera).raw, None, true, {UNIFORM, STORAGE})
      ensures directionalNext == CountOf(lights[..i + 1], Directional)
      ensures pointNext == CountOf(lights[..i + 1], Point) + CountOf(lights[..i + 1], Spot)
    {
      var id := lights[i].0;
      var k := lights[i].1;
      ghost var p := PreparedViews(lights[..i], camera);
      PreparedStep(lights, camera, i);
      var n := if k.Directional? then directionalIndex else pointIndex;
      var vs := PushLight(id, k, n, buffer, camera, p.raw);
      directionalNext, pointNext := directionalIndex, pointIndex;
      if k.Directional? {
        directionalNext := directionalIndex + 1;
      } else {
        pointNext := pointIndex + 1;
      }
      views := views[id := vs];
    }

    /** The light loop of `prepare`: each light in turn gets its views
     *  under its id, its cameras pushed, the directional and the
     *  point-or-spot counters advancing. */
    method PushLights(lights: seq<(Uuid, LightKind)>, camera: (Uuid, nat) -> seq<byte>, buffer: DynamicGpuBuffer)
      requires views == map[] && buffer.State() == BufferState([], None, true, {UNIFORM, STORAGE})
      modifies this`views, buffer
      ensures views == PreparedViews(lights, camera).views
      ensures buffer.State() == BufferState(PreparedViews(lights, camera).raw, None, true, {UNIFORM, STORAGE})
    {
      var directionalIndex := 0;
      var pointIndex := 0;
      for i := 0 to |lights|
        invariant views == PreparedViews(lights[..i], camera).views
        invariant buffer.State() == BufferState(PreparedViews(lights[..i], camera).raw, None, true, {UNIFORM, STORAGE})
        invariant directionalIndex == CountOf(lights[..i], Directional)
        invariant pointIndex == CountOf(lights[..i], Point) + CountOf(lights[..i], Spot)
      {
        directionalIndex, pointIndex := PushLightAt(lights, camera, buffer, i, directionalIndex, pointIndex);
      }
      assert lights[..|lights|] == lights;
    }

    /** `prepare`: the views are cleared first; the shadow maps must have
     *  been built (`unwrap`). The lights' cameras go into a fresh
     *  light-view buffer, which is written and kept under `lightView`, and
     *  its bind group made, which needs the light-view layout and a device
     *  buffer (there is none when no camera was pushed). */
    method Prepare(lights: seq<(Uuid, LightKind)>, camera: (Uuid, nat) -> seq<byte>, mapsBuilt: bool,
                   assets: RS.GpuAssets, lightView: Uuid) returns (r: Result<(), Panic>)
      modifies this`views, assets`buffers, assets`bindGroups
      ensures !mapsBuilt ==> (r == Err(UnwrapNone) && views == map[]
        && assets.buffers == old(assets.buffers) && assets.bindGroups == old(assets.bindGroups))
      ensures mapsBuilt ==> (views == PreparedViews(lights, camera).views
        && assets.buffers == old(assets.buffers)[lightView := LightViewBuffer(lights, camera)])
      ensures mapsBuilt ==> (r.Err? <==> lightView !in assets.layouts || LightViewBuffer(lights, camera).gpu.None?)
      ensures r.Err? ==> r.error == UnwrapNone && assets.bindGroups == old(assets.bindGroups)
      ensures r.Ok? ==> assets.bindGroups == old(assets.bindGroups)[lightView :=
        RS.BindGroup(assets.layouts[lightView], [RS.BufferResource(LightViewBuffer(lights, camera).gpu.value)])]
    {
      views := map[];
      if !mapsBuilt {
        return Err(UnwrapNone);
      }
      var buffer := new DynamicGpuBuffer({UNIFORM, STORAGE});
      PushLights(lights, camera, buffer);
      buffer.Write();
      var written := buffer.State();
      assert written == LightViewBuffer(lights, camera);
      assets.buffers := assets.buffers[lightView := written];
      if lightView !in assets.layouts || written.gpu.None? {
        return Err(UnwrapNone);
      }
      assets.bindGroups := assets.bindGroups[lightView := RS.BindGroup(assets.layouts[lightView], [RS.BufferResource(written.gpu.value)])];
      return Ok(());
    }

    /** `draw`, for lights listed by id in the scene's order: nothing
     *  without the light-view bind group; with lights but no pipeline,
     *  nothing either; otherwise the light loop. */
    function Draw(ids: seq<Uuid>, hasLightViewGroup: bool, buffers: map<Uuid, BufferState>, queue: seq<Uuid>, stride: nat)
      : (o: DrawOutcome)
      reads this
      requires stride > 0
      ensures !hasLightViewGroup ==> o == NothingSubmitted
      ensures (exists i :: 0 <= i < |queue| && queue[i] !in buffers) ==> !(o.Submitted? && o.passes != [])
    {
      if !hasLightViewGroup then NothingSubmitted
      else if ids == [] then Submitted([])
      else if !pipelineBuilt then NothingSubmitted
      else
        var meshes := MeshDraws(queue, buffers, stride);
        UnfinishedMeshesSubmitNothing(ids, views, meshes);
        DrawLights(ids, views, meshes)
    }
  }

  /** Drawing right after `prepare` over the same lights never panics on a
   *  light's views: with the pipeline, the bind group and drawable meshes,
   *  every camera of every light gets its pass. */
  lemma PrepareThenDraw(lights: seq<(Uuid, LightKind)>, camera: (Uuid, nat) -> seq<byte>, counts: seq<nat>)
    ensures var ids := seq(|lights|, i requires 0 <= i < |lights| => lights[i].0);
      var views := PreparedViews(lights, camera).views;
      (forall i :: 0 <= i < |ids| ==> ids[i] in views)
      && DrawLights(ids, views, Ok(Some(counts))) == Submitted(AllPasses(ids, views, counts))
  {
    var ids := seq(|lights|, i requires 0 <= i < |lights| => lights[i].0);
    PreparedKeys(lights, camera);
    assert forall i :: 0 <= i < |ids| ==> ids[i] == lights[i].0;
    DrawLightsComplete(ids, PreparedViews(lights, camera).views, counts);
  }

  // ---------------------------------------------------------------------
  // The PBR node's material uniforms.

  /** A material's uniform, as bytes. */
  function UniformBytes(m: CM.PbrMaterial, pow: Color.Pow, toBytes: CM.PbrMaterialUniform -> seq<byte>): seq<byte> {
    toBytes(CM.Transfer(m, pow))
  }

  /** What the offset loop of `prepare` has made of a queue: the queue
   *  with its offsets, the uniform bytes pushed, and whether anything was
   *  pushed at all. */
  datatype MaterialLayout = MaterialLayout(queue: seq<Flow.RenderMesh>, raw: seq<byte>, pushed: bool)

  /** Every queued mesh whose material is known gets the offset of its
   *  material's uniform, pushed after those before it; the others keep
   *  theirs. */
  function LaidOut(queue: seq<Flow.RenderMesh>, materials: map<Uuid, CM.PbrMaterial>, pow: Color.Pow,
                   toBytes: CM.PbrMaterialUniform -> seq<byte>): (r: MaterialLayout)
    ensures |r.queue| == |queue|
    ensures !r.pushed ==> r.raw == []
  {
    if queue == [] then MaterialLayout([], [], false)
    else LayStep(LaidOut(queue[..|queue| - 1], materials, pow, toBytes), queue[|queue| - 1], materials, pow, toBytes)
  }

  /** A mesh as the loop leaves it, after the bytes of `l`. */
  function LaidMesh(l: MaterialLayout, sm: Flow.RenderMesh, materials: map<Uuid, CM.PbrMaterial>): Flow.RenderMesh {
    if sm.mesh.material in materials then sm.(offset := Some(AsU32(|l.raw|))) else sm
  }

  /** One turn of the loop. */
  function LayStep(l: MaterialLayout, sm: Flow.RenderMesh, materials: map<Uuid, CM.PbrMaterial>, pow: Color.Pow,
                   toBytes: CM.PbrMaterialUniform -> seq<byte>): MaterialLayout
  {
    if sm.mesh.material in materials then
      MaterialLayout(l.queue + [LaidMesh(l, sm, materials)], l.raw + UniformBytes(materials[sm.mesh.material], pow, toBytes), true)
    else MaterialLayout(l.queue + [sm], l.raw, l.pushed)
  }

  /** The material buffer once the loop has pushed the layout's bytes. */
  function Laid(b: BufferState, l: MaterialLayout): BufferState {
    b.(raw := b.raw + l.raw, changed := b.changed || l.pushed)
  }

  /** The material buffer as `prepare` starts from it: the existing one
   *  cleared, or a new uniform buffer. */
  function ResetBuffer(buffers: map<Uuid, BufferState>, key: Uuid): (b: BufferState)
    ensures b.raw == []
    ensures key in buffers ==> b.gpu == buffers[key].gpu && b.usage == buffers[key].usage && b.changed == buffers[key].changed
    ensures key !in buffers ==> b == BufferState([], None, true, {UNIFORM})
  {
    if key in buffers then Cleared(buffers[key]) else BufferState([], None, true, {UNIFORM})
  }

  /** The material buffer `prepare` leaves: the layout's bytes alone,
   *  written. */
  function MaterialBuffer(buffers: map<Uuid, BufferState>, key: Uuid, l: MaterialLayout): BufferState {
    DynamicWritten(Laid(ResetBuffer(buffers, key), l))
  }

  /** The loop keeps every mesh in place, gives each mesh with a known
   *  material an offset, leaves the others' offsets alone, and pushes
   *  something exactly when some material is known. */
  lemma {:induction false} LaidOutQueue(queue: seq<Flow.RenderMesh>, materials: map<Uuid, CM.PbrMaterial>, pow: Color.Pow,
                                        toBytes: CM.PbrMaterialUniform -> seq<byte>)
    ensures var q := LaidOut(queue, materials, pow, toBytes).queue;
      && |q| == |queue|
      && forall i :: 0 <= i < |queue| ==>
           && q[i].mesh == queue[i].mesh
           && (queue[i].mesh.material !in materials ==> q[i].offset == queue[i].offset)
           && (queue[i].mesh.material in materials ==> q[i].offset.Some?)
    ensures LaidOut(queue, materials, pow, toBytes).pushed <==> exists i :: 0 <= i < |queue| && queue[i].mesh.material in materials
  {
    if queue != [] {
      var m := |queue| - 1;
      LaidOutQueue(queue[..m], materials, pow, toBytes);
      forall i | 0 <= i < m
        ensures queue[..m][..i] == queue[..i] && queue[..m][i] == queue[i]
      {
      }
      if LaidOut(queue, materials, pow, toBytes).pushed && queue[m].mesh.material !in materials {
        var j :| 0 <= j < m && queue[..m][j].mesh.material in materials;
        assert queue[j].mesh.material in materials;
      }
    }
  }

  /** A known mesh's offset is the length of the bytes pushed before it. */
  lemma {:induction false} LaidOutOffsetAt(queue: seq<Flow.RenderMesh>, materials: map<Uuid, CM.PbrMaterial>, pow: Color.Pow,
                                           toBytes: CM.PbrMaterialUniform -> seq<byte>, i: nat)
    requires i < |queue| && queue[i].mesh.material in materials
    ensures var q := LaidOut(queue, materials, pow, toBytes).queue;
      |q| == |queue| && q[i].offset == Some(AsU32(|LaidOut(queue[..i], materials, pow, toBytes).raw|))
  {
    var m := |queue| - 1;
    if i < m {
      assert queue[..m][..i] == queue[..i];
      assert queue[..m][i] == queue[i];
      LaidOutOffsetAt(queue[..m], materials, pow, toBytes, i);
    } else {
      assert queue[..i] == queue[..m];
      LaidOutLength(queue[..m], materials, pow, toBytes);
    }
  }

  lemma {:induction false} LaidOutLength(queue: seq<Flow.RenderMesh>, materials: map<Uuid, CM.PbrMaterial>, pow: Color.Pow,
                                         toBytes: CM.PbrMaterialUniform -> seq<byte>)
    ensures |LaidOut(queue, materials, pow, toBytes).queue| == |queue|
  {
    if queue != [] {
      LaidOutLength(queue[..|queue| - 1], materials, pow, toBytes);
    }
  }

  /** The bytes pushed before a known mesh, then its uniform, start the
   *  buffer's bytes. */
  lemma {:induction false} LaidOutRawPrefix(queue: seq<Flow.RenderMesh>, materials: map<Uuid, CM.PbrMaterial>, pow: Color.Pow,
                                            toBytes: CM.PbrMaterialUniform -> seq<byte>, i: nat)
    requires i < |queue| && queue[i].mesh.material in materials
    ensures LaidOut(queue[..i], materials, pow, toBytes).raw + UniformBytes(materials[queue[i].mesh.material], pow, toBytes)
            <= LaidOut(queue, materials, pow, toBytes).raw
  {
    var m := |queue| - 1;
    if i < m {
      assert queue[..m][..i] == queue[..i];
      assert queue[..m][i] == queue[i];
      LaidOutRawPrefix(queue[..m], materials, pow, toBytes, i);
    } else {
      assert queue[..i] == queue[..m];
    }
  }

  /** Each known mesh's offset is where its material's uniform starts in
   *  the material buffer (while the buffer is shorter than 4 GiB). */
  lemma MaterialOffsets(queue: seq<Flow.RenderMesh>, materials: map<Uuid, CM.PbrMaterial>, pow: Color.Pow,
                        toBytes: CM.PbrMaterialUniform -> seq<byte>, i: nat)
    requires i < |queue| && queue[i].mesh.material in materials
    requires |LaidOut(queue, materials, pow, toBytes).raw| < 0x1_0000_0000
    ensures var l := LaidOut(queue, materials, pow, toBytes);
      var u := UniformBytes(materials[queue[i].mesh.material], pow, toBytes);
      && |l.queue| == |queue| && l.queue[i].offset.Some?
      && l.queue[i].offset.value + |u| <= |l.raw|
      && l.raw[l.queue[i].offset.value..l.queue[i].offset.value + |u|] == u
  {
    LaidOutOffsetAt(queue, materials, pow, toBytes, i);
    LaidOutRawPrefix(queue, materials, pow, toBytes, i);
    var before := LaidOut(queue[..i], materials, pow, toBytes).raw;
    var u := UniformBytes(materials[queue[i].mesh.material], pow, toBytes);
    var l := LaidOut(queue, materials, pow, toBytes);
    assert l.queue[i].offset == Some(AsU32(|before|));
    assert |before| + |u| <= |l.raw|;
    assert AsU32(|before|) == |before|;
    assert l.raw[|before|..|before| + |u|] == (before + u)[|before|..|before| + |u|];
  }

  /** Two known meshes later in the queue get later slots, and slots do
   *  not overlap (while the buffer is shorter than 4 GiB). */
  lemma SlotsDisjoint(queue: seq<Flow.RenderMesh>, materials: map<Uuid, CM.PbrMaterial>, pow: Color.Pow,
                      toBytes: CM.PbrMaterialUniform -> seq<byte>, i: nat, j: nat)
    requires i < j < |queue| && queue[i].mesh.material in materials && queue[j].mesh.material in materials
    requires |LaidOut(queue, materials, pow, toBytes).raw| < 0x1_0000_0000
    ensures var q := LaidOut(queue, materials, pow, toBytes).queue;
      && |q| == |queue| && q[i].offset.Some? && q[j].offset.Some?
      && q[i].offset.value + |UniformBytes(materials[queue[i].mesh.material], pow, toBytes)| <= q[j].offset.value
  {
    LaidOutOffsetAt(queue, materials, pow, toBytes, i);
    LaidOutOffsetAt(queue, materials, pow, toBytes, j);
    LaidOutRawPrefix(queue, materials, pow, toBytes, j);
    assert queue[..j][..i] == queue[..i];
    assert queue[..j][i] == queue[i];
    LaidOutRawPrefix(queue[..j], materials, pow, toBytes, i);
  }

  /** The material buffer holds the layout's bytes and nothing from
   *  earlier frames, and they are on the device after the write. */
  lemma MaterialBufferUploaded(buffers: map<Uuid, BufferState>, key: Uuid, l: MaterialLayout)
    ensures MaterialBuffer(buffers, key, l).raw == l.raw
    ensures l.raw != [] ==> Uploaded(MaterialBuffer(buffers, key, l))
  {
    WriteUploads(Laid(ResetBuffer(buffers, key), l));
  }

  /** Replacing the first element after a prefix. */
  lemma Splice<T>(done: seq<T>, rest: seq<T>, x: T)
    requires rest != []
    ensures (done + rest)[|done| := x] == (done + [x]) + rest[1..]
  {
  }

  // ---------------------------------------------------------------------
  // The PBR node's bind groups.

  /** What the bind-group loop of `prepare` has added: the groups made,
   *  under each material's uuid, and the panic that stopped it, if any. */
  datatype Bound = Bound(groups: map<Uuid, RS.BindGroup>, panic: Option<Panic>)

  /** Each queued mesh with a known material has its material's group
   *  made, in queue order, until one panics. */
  function BoundGroups(queue: seq<Flow.RenderMesh>, materials: map<Uuid, CM.PbrMaterial>, a: RS.Assets<CM.PbrMaterial>,
                       pbrType: Uuid, dummy: Uuid): (r: Bound)
    ensures r.groups.Keys <= materials.Keys
    ensures r.panic.Some? ==> r.panic.value == UnwrapNone || r.panic.value == MissingKey
  {
    if queue == [] then Bound(map[], None)
    else
      var m := |queue| - 1;
      var p := BoundGroups(queue[..m], materials, a, pbrType, dummy);
      var u := queue[m].mesh.material;
      if p.panic.Some? || u !in materials then p
      else
        var g := CM.PbrBindGroup(a, materials[u], pbrType, dummy);
        if g.Err? then Bound(p.groups, Some(g.error))
        else if g.value.None? then p
        else Bound(p.groups[u := g.value.value], None)
  }

  /** Everything a material's bind group needs is in place. */
  predicate GroupsReady(a: RS.Assets<CM.PbrMaterial>, materials: map<Uuid, CM.PbrMaterial>, pbrType: Uuid, dummy: Uuid) {
    && pbrType in a.buffers && a.buffers[pbrType].gpu.Some? && pbrType in a.layouts && CM.TONY_MC_MAPFACE_LUT in a.textures
    && forall u :: u in materials ==>
         CM.TextureKey(materials[u].texBaseColor, dummy) in a.textures && CM.TextureKey(materials[u].texNormal, dummy) in a.textures
  }

  /** The materials of the queue that are known. */
  function KnownMaterials(queue: seq<Flow.RenderMesh>, materials: map<Uuid, CM.PbrMaterial>): set<Uuid> {
    set i | 0 <= i < |queue| && queue[i].mesh.material in materials :: queue[i].mesh.material
  }

  /** The loop only makes groups of known queued materials, each the
   *  material's own group, binding the material buffer's device buffer
   *  first. */
  lemma {:induction false} BoundGroupsSound(queue: seq<Flow.RenderMesh>, materials: map<Uuid, CM.PbrMaterial>,
                                            a: RS.Assets<CM.PbrMaterial>, pbrType: Uuid, dummy: Uuid)
    ensures var b := BoundGroups(queue, materials, a, pbrType, dummy);
      && b.groups.Keys <= KnownMaterials(queue, materials)
      && (forall u :: u in b.groups ==> u in materials && CM.PbrBindGroup(a, materials[u], pbrType, dummy) == Ok(Some(b.groups[u])))
      && (forall u :: u in b.groups ==> b.groups[u].entries[0] == RS.BufferResource(a.buffers[pbrType].gpu.value))
  {
    if queue != [] {
      var m := |queue| - 1;
      BoundGroupsSound(queue[..m], materials, a, pbrType, dummy);
      KnownStep(queue, materials);
    }
  }

  /** With everything in place, the loop never panics and every known
   *  queued material gets its group. */
  lemma {:induction false} BoundGroupsComplete(queue: seq<Flow.RenderMesh>, materials: map<Uuid, CM.PbrMaterial>,
                                               a: RS.Assets<CM.PbrMaterial>, pbrType: Uuid, dummy: Uuid)
    requires GroupsReady(a, materials, pbrType, dummy)
    ensures var b := BoundGroups(queue, materials, a, pbrType, dummy);
      b.panic.None? && b.groups.Keys == KnownMaterials(queue, materials)
  {
    if queue != [] {
      var m := |queue| - 1;
      BoundGroupsComplete(queue[..m], materials, a, pbrType, dummy);
      KnownStep(queue, materials);
    }
  }

  lemma KnownStep(queue: seq<Flow.RenderMesh>, materials: map<Uuid, CM.PbrMaterial>)
    requires queue != []
    ensures var m := |queue| - 1;
      KnownMaterials(queue, materials) == KnownMaterials(queue[..m], materials)
        + (if queue[m].mesh.material in materials then {queue[m].mesh.material} else {})
  {
    var m := |queue| - 1;
    assert forall i :: 0 <= i < m ==> queue[..m][i] == queue[i];
  }

  /** Once a group panics, the rest of the queue adds nothing. */
  lemma {:induction false} BoundGroupsStop(queue: seq<Flow.RenderMesh>, materials: map<Uuid, CM.PbrMaterial>,
                                           a: RS.Assets<CM.PbrMaterial>, pbrType: Uuid, dummy: Uuid, k: nat)
    requires k <= |queue| && BoundGroups(queue[..k], materials, a, pbrType, dummy).panic.Some?
    ensures BoundGroups(queue, materials, a, pbrType, dummy) == BoundGroups(queue[..k], materials, a, pbrType, dummy)
  {
    if k < |queue| {
      var m := |queue| - 1;
      assert queue[..m][..k] == queue[..k];
      BoundGroupsStop(queue[..m], materials, a, pbrType, dummy, k);
    } else {
      assert queue[..k] == queue;
    }
  }

  lemma BoundStep(queue: seq<Flow.RenderMesh>, materials: map<Uuid, CM.PbrMaterial>,
                  a: RS.Assets<CM.PbrMaterial>, pbrType: Uuid, dummy: Uuid, i: nat)
    requires i < |queue|
    ensures var p := BoundGroups(queue[..i], materials, a, pbrType, dummy);
      var u := queue[i].mesh.material;
      BoundGroups(queue[..i + 1], materials, a, pbrType, dummy)
      == if p.panic.Some? || u !in materials then p
         else
           var g := CM.PbrBindGroup(a, materials[u], pbrType, dummy);
           if g.Err? then Bound(p.groups, Some(g.error))
           else if g.value.None? then p
           else Bound(p.groups[u := g.value.value], None)
  {
    assert queue[..i + 1][..i] == queue[..i];
    assert queue[..i + 1][i] == queue[i];
  }

  // ---------------------------------------------------------------------
  // The PBR node.

  class PbrNode {
    /** The material type's key: its buffer and layout live under it. */
    const matUuid: Uuid
    /** Whether `build` made the pipeline. */
    var pipelineBuilt: bool

    constructor (matUuid: Uuid)
      ensures this.matUuid == matUuid && !pipelineBuilt
    {
      this.matUuid := matUuid;
      pipelineBuilt := false;
    }

    /** One turn of the offset loop, on mesh `i`: the first `i` meshes
     *  have been laid out, and now the first `i + 1` have. */
    method LayOutOne(assets: RS.GpuAssets, materials: map<Uuid, CM.PbrMaterial>, queue: array<Flow.RenderMesh>, i: nat,
                     pow: Color.Pow, toBytes: CM.PbrMaterialUniform -> seq<byte>,
                     ghost queue0: seq<Flow.RenderMesh>, ghost base: map<Uuid, BufferState>, ghost b0: BufferState)
      requires i < queue.Length == |queue0| && b0.raw == []
      requires queue[..] == LaidOut(queue0[..i], materials, pow, toBytes).queue + queue0[i..]
      requires assets.buffers == base[matUuid := Laid(b0, LaidOut(queue0[..i], materials, pow, toBytes))]
      modifies assets, queue
      ensures queue[..] == LaidOut(queue0[..i + 1], materials, pow, toBytes).queue + queue0[i + 1..]
      ensures assets.buffers == base[matUuid := Laid(b0, LaidOut(queue0[..i + 1], materials, pow, toBytes))]
      ensures assets.textures == old(assets.textures) && assets.bindGroups == old(assets.bindGroups)
      ensures assets.layouts == old(assets.layouts)
    {
      ghost var l := LaidOut(queue0[..i], materials, pow, toBytes);
      assert queue0[..i + 1][..i] == queue0[..i];
      assert LaidOut(queue0[..i + 1], materials, pow, toBytes) == LayStep(l, queue0[i], materials, pow, toBytes);
      LaidOutLength(queue0[..i], materials, pow, toBytes);
      Splice(l.queue, queue0[i..], LaidMesh(l, queue0[i], materials));
      var sm := queue[i];
      assert sm == queue0[i];
      if sm.mesh.material in materials {
        var bytes := UniformBytes(materials[sm.mesh.material], pow, toBytes);
        assert Pushed(Laid(b0, l), bytes) == Laid(b0, LayStep(l, sm, materials, pow, toBytes)) by {
          assert b0.raw + l.raw + bytes == b0.raw + (l.raw + bytes);
        }
        var r := CM.Prepare(assets, materials[sm.mesh.material], matUuid, pow, toBytes);
        queue[i] := sm.(offset := Some(r.value));
      }
    }

    /** The material buffer is cleared, or made; then the offset loop:
     *  each queued mesh with a known material has its material prepared,
     *  and gets the offset returned. */
    method LayOut(assets: RS.GpuAssets, materials: map<Uuid, CM.PbrMaterial>, queue: array<Flow.RenderMesh>,
                  pow: Color.Pow, toBytes: CM.PbrMaterialUniform -> seq<byte>)
      modifies assets, queue
      ensures var l := LaidOut(old(queue[..]), materials, pow, toBytes);
        && queue[..] == l.queue
        && assets.buffers == old(assets.buffers)[matUuid := Laid(ResetBuffer(old(assets.buffers), matUuid), l)]
      ensures assets.textures == old(assets.textures) && assets.bindGroups == old(assets.bindGroups)
      ensures assets.layouts == old(assets.layouts)
    {
      ghost var queue0 := queue[..];
      ghost var base := assets.buffers;
      var b0 := ResetBuffer(assets.buffers, matUuid);
      assets.buffers := assets.buffers[matUuid := b0];
      assert queue0[..0] == [] && queue0[0..] == queue0;
      assert Laid(b0, MaterialLayout([], [], false)) == b0;
      for i := 0 to queue.Length
        invariant queue[..] == LaidOut(queue0[..i], materials, pow, toBytes).queue + queue0[i..]
        invariant assets.buffers == base[matUuid := Laid(b0, LaidOut(queue0[..i], materials, pow, toBytes))]
        invariant assets.textures == old(assets.textures) && assets.bindGroups == old(assets.bindGroups)
        invariant assets.layouts == old(assets.layouts)
      {
        LayOutOne(assets, materials, queue, i, pow, toBytes, queue0, base, b0);
      }
      assert queue0[..queue.Length] == queue0;
    }

    /** The bind-group loop: each queued mesh with a known material has
     *  its material's bind group made, until one panics. */
    method BindMaterials(assets: RS.GpuAssets, materials: map<Uuid, CM.PbrMaterial>, queue: array<Flow.RenderMesh>, dummy: Uuid)
        returns (r: Result<(), Panic>)
      modifies assets
      ensures var b := BoundGroups(queue[..], materials,
          RS.Assets(assets.buffers, assets.textures, old(assets.bindGroups), assets.layouts, map[]), matUuid, dummy);
        && assets.bindGroups == old(assets.bindGroups) + b.groups
        && (r.Err? <==> b.panic.Some?)
        && (r.Err? ==> r.error == b.panic.value)
      ensures assets.buffers == old(assets.buffers) && assets.textures == old(assets.textures)
      ensures assets.layouts == old(assets.layouts)
    {
      ghost var a := RS.Assets(assets.buffers, assets.textures, assets.bindGroups, assets.layouts, map[]);
      for i := 0 to queue.Length
        invariant assets.buffers == a.buffers && assets.textures == a.textures && assets.layouts == a.layouts
        invariant BoundGroups(queue[..i], materials, a, matUuid, dummy).panic.None?
        invariant assets.bindGroups == a.bindGroups + BoundGroups(queue[..i], materials, a, matUuid, dummy).groups
      {
        BoundStep(queue[..], materials, a, matUuid, dummy, i);
        var u := queue[i].mesh.material;
        if u in materials {
          assert CM.PbrBindGroup(RS.Assets(assets.buffers, assets.textures, assets.bindGroups, assets.layouts, map[]), materials[u], matUuid, dummy)
              == CM.PbrBindGroup(a, materials[u], matUuid, dummy);
          var c := CM.CreateBindGroup(assets, materials[u], matUuid, u, dummy);
          if c.Err? {
            BoundGroupsStop(queue[..], materials, a, matUuid, dummy, i + 1);
            return c;
          }
        }
      }
      assert queue[..queue.Length] == queue[..];
      return Ok(());
    }

    /** The first half of `prepare`: the uniforms are laid out and the
     *  material buffer written. */
    method WriteMaterials(assets: RS.GpuAssets, materials: map<Uuid, CM.PbrMaterial>, queue: array<Flow.RenderMesh>,
                          pow: Color.Pow, toBytes: CM.PbrMaterialUniform -> seq<byte>)
      modifies assets, queue
      ensures var l := LaidOut(old(queue[..]), materials, pow, toBytes);
        && queue[..] == l.queue
        && assets.buffers == old(assets.buffers)[matUuid := MaterialBuffer(old(assets.buffers), matUuid, l)]
      ensures assets.textures == old(assets.textures) && assets.bindGroups == old(assets.bindGroups)
      ensures assets.layouts == old(assets.layouts)
    {
      LayOut(assets, materials, queue, pow, toBytes);
      assets.buffers := assets.buffers[matUuid := DynamicWritten(assets.buffers[matUuid])];
    }

    /** `prepare`: the materials' uniforms are laid out and written, then
     *  each queued material gets its bind group, over the written buffer. */
    method Prepare(assets: RS.GpuAssets, materials: map<Uuid, CM.PbrMaterial>, queue: array<Flow.RenderMesh>,
                   pow: Color.Pow, toBytes: CM.PbrMaterialUniform -> seq<byte>, dummy: Uuid) returns (r: Result<(), Panic>)
      modifies assets, queue
      ensures var l := LaidOut(old(queue[..]), materials, pow, toBytes);
        && queue[..] == l.queue
        && assets.buffers == old(assets.buffers)[matUuid := MaterialBuffer(old(assets.buffers), matUuid, l)]
      ensures var b := BoundGroups(queue[..], materials,
          RS.Assets(assets.buffers, assets.textures, old(assets.bindGroups), assets.layouts, map[]), matUuid, dummy);
        && assets.bindGroups == old(assets.bindGroups) + b.groups
        && (r.Err? <==> b.panic.Some?)
        && (r.Err? ==> r.error == b.panic.value)
      ensures assets.textures == old(assets.textures) && assets.layouts == old(assets.layouts)
    {
      WriteMaterials(assets, materials, queue, pow, toBytes);
      r := BindMaterials(assets, materials, queue, dummy);
    }

    /** `draw`: nothing without the camera and lights bind groups and the
     *  light-view buffer, nor when the shadow maps cannot be bound, nor
     *  without the pipeline; otherwise one pass over the queue. */
    function Draw(bindGroups: map<Uuid, RS.BindGroup>, buffers: map<Uuid, BufferState>, keys: SceneKeys,
                  shadowMapsBound: bool, queue: seq<Flow.RenderMesh>, stride: nat): (o: PbrOutcome)
      reads this
      requires stride > 0
      ensures o.PbrSubmitted? ==> pipelineBuilt && keys.camera in bindGroups && keys.lights in bindGroups
      ensures o.PbrSubmitted? ==> forall d :: d in o.draws ==> d.material in bindGroups && d.mesh in buffers
      ensures o.PbrPanicked? ==> o.p == UnwrapNone
    {
      if keys.camera !in bindGroups || keys.lights !in bindGroups || keys.lightView !in buffers then PbrNothingSubmitted
      else if buffers[keys.lightView].gpu.None? || !shadowMapsBound then PbrNothingSubmitted
      else if !pipelineBuilt then PbrNothingSubmitted
      else
        var ds := PbrMeshDraws(queue, bindGroups, buffers, stride);
        if ds.Ok? then PbrSubmitted(ds.value) else PbrPanicked(ds.error)
    }
  }

  /** Where the scene's shared bind groups and the light-view buffer live. */
  datatype SceneKeys = SceneKeys(camera: Uuid, lights: Uuid, lightView: Uuid)

  /** One draw of the PBR pass: the material group with its dynamic
   *  offset, the vertex buffer, and its vertex count. */
  datatype MeshDraw = MeshDraw(material: Uuid, offset: nat, mesh: Uuid, vertexCount: nat)

  datatype PbrOutcome = PbrSubmitted(draws: seq<MeshDraw>) | PbrNothingSubmitted | PbrPanicked(p: Panic)

  /** The mesh loop of the PBR pass: a mesh without a material group or a
   *  vertex buffer is skipped; one without an offset, a device buffer or
   *  whole vertices panics. */
  function PbrMeshDraws(queue: seq<Flow.RenderMesh>, groups: map<Uuid, RS.BindGroup>, buffers: map<Uuid, BufferState>,
                        stride: nat): (r: Result<seq<MeshDraw>, Panic>)
    requires stride > 0
    ensures r.Ok? ==> |r.value| <= |queue|
    ensures r.Ok? ==> forall d :: d in r.value ==> d.material in groups && d.mesh in buffers
    ensures r.Err? ==> r.error == UnwrapNone
  {
    if queue == [] then Ok([])
    else
      var sm := queue[0];
      var rest := PbrMeshDraws(queue[1..], groups, buffers, stride);
      if sm.mesh.material !in groups || sm.mesh.mesh !in buffers then rest
      else if sm.offset.None? then Err(UnwrapNone)
      else
        var b := buffers[sm.mesh.mesh];
        if b.gpu.None? || |b.raw| % stride != 0 then Err(UnwrapNone)
        else if rest.Err? then rest
        else Ok([MeshDraw(sm.mesh.material, sm.offset.value, sm.mesh.mesh, AsU32(|b.raw| / stride))] + rest.value)
  }

  /** A vertex buffer the pass can draw from. */
  predicate Drawable(buffers: map<Uuid, BufferState>, mesh: Uuid, stride: nat)
    requires stride > 0
  {
    mesh in buffers && buffers[mesh].gpu.Some? && |buffers[mesh].raw| % stride == 0
  }

  /** When every queued mesh has its group, an offset and a drawable
   *  buffer, each is drawn, in order, with its own offset. */
  lemma {:induction false} PbrMeshDrawsAll(queue: seq<Flow.RenderMesh>, groups: map<Uuid, RS.BindGroup>,
                                           buffers: map<Uuid, BufferState>, stride: nat)
    requires stride > 0
    requires forall i :: 0 <= i < |queue| ==>
      queue[i].mesh.material in groups && queue[i].offset.Some? && Drawable(buffers, queue[i].mesh.mesh, stride)
    ensures var r := PbrMeshDraws(queue, groups, buffers, stride);
      && r.Ok? && |r.value| == |queue|
      && forall i :: 0 <= i < |queue| ==> (queue[i].mesh.mesh in buffers &&
           r.value[i] == MeshDraw(queue[i].mesh.material, queue[i].offset.value, queue[i].mesh.mesh,
                                  AsU32(|buffers[queue[i].mesh.mesh].raw| / stride)))
  {
    if queue != [] {
      assert forall i :: 0 <= i < |queue| - 1 ==> queue[1..][i] == queue[i + 1];
      PbrMeshDrawsAll(queue[1..], groups, buffers, stride);
    }
  }

  /** After `prepare`, with every queued material known and everything
   *  its bind group needs in place, the PBR pass draws every queued mesh
   *  with a drawable buffer, each with its material's offset. */
  lemma PreparedQueueDraws(queue: seq<Flow.RenderMesh>, materials: map<Uuid, CM.PbrMaterial>, pow: Color.Pow,
                           toBytes: CM.PbrMaterialUniform -> seq<byte>, a: RS.Assets<CM.PbrMaterial>, pbrType: Uuid,
                           dummy: Uuid, stride: nat)
    requires stride > 0 && GroupsReady(a, materials, pbrType, dummy)
    requires forall i :: 0 <= i < |queue| ==> queue[i].mesh.material in materials && Drawable(a.buffers, queue[i].mesh.mesh, stride)
    ensures var q := LaidOut(queue, materials, pow, toBytes).queue;
      var groups := a.bindGroups + BoundGroups(q, materials, a, pbrType, dummy).groups;
      var r := PbrMeshDraws(q, groups, a.buffers, stride);
      && |q| == |queue| && r.Ok? && |r.value| == |queue|
      && forall i :: 0 <= i < |queue| ==> r.value[i].offset == AsU32(|LaidOut(queue[..i], materials, pow, toBytes).raw|)
  {
    var q := LaidOut(queue, materials, pow, toBytes).queue;
    LaidOutQueue(queue, materials, pow, toBytes);
    BoundGroupsComplete(q, materials, a, pbrType, dummy);
    var groups := a.bindGroups + BoundGroups(q, materials, a, pbrType, dummy).groups;
    forall i | 0 <= i < |q|
      ensures q[i].mesh.material in groups && q[i].offset.Some? && Drawable(a.buffers, q[i].mesh.mesh, stride)
    {
      assert q[i].mesh.material in KnownMaterials(q, materials);
    }
    PbrMeshDrawsAll(q, groups, a.buffers, stride);
    var ds := PbrMeshDraws(q, groups, a.buffers, stride).value;
    forall i | 0 <= i < |queue|
      ensures ds[i].offset == AsU32(|LaidOut(queue[..i], materials, pow, toBytes).raw|)
    {
      assert ds[i].offset == q[i].offset.value;
      LaidOutOffsetAt(queue, materials, pow, toBytes, i);
    }
  }
}
