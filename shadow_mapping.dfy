/** The shadow-mapping node: how many array layers the directional and the
 *  point shadow maps get, which layer each light view renders to, in which
 *  order the light-view offsets are recorded and read back, and the Poisson
 *  sample table.
 *
 *  The cameras a view is rendered from come in as their bytes, one byte
 *  string per view. Of the cascade fitting, which point a cascade looks
 *  from, the shape of its box and its two scalar fields are modelled; the
 *  frustum corners and matrix products are parameters. Texture-view ids
 *  come from `Uuid::new_v4`, so they are a parameter too. */
module ShadowMapping {
  import opened Common
  import opened Buffers
  import SD = ShaderDef
  import H = Helper
  import M = Matrix
  import FS = FrustumSlicing
  import CubeMap

  type Uuid = nat

  datatype Partitioning = NoPartitioning | PSSM | SDSM

  const CASCADE_COUNT: nat := 1
  const PARTITIONING: Partitioning := PSSM

  datatype Config = Config(dirMapResolution: nat, pointMapResolution: nat, samples: nat,
                           dirPcfRadius: real, dirPcssRadius: real, pointPcfRadius: real, pointPcssRadius: real)

  const CONFIG: Config := Config(2048, 512, 16, 1.0, 1.0, 0.2, 0.1)

  // The fixed ids of the node's resources (`SHADOW_MAPPING`).
  const LIGHT_VIEWS: Uuid := 89413211065410340136548487101523115648
  const CASCADE_VIEWS: Uuid := 894132906465410168465132984653696845
  const POINT_LIGHT_VIEWS: Uuid := 8794041105348641631856410231
  const POISSON_DISK: Uuid := 1687846160641318676894156310604693
  const CONFIG_BUFFER: Uuid := 1354687841323006814572453187684531684
  const DIRECTIONAL_SHADOW_MAP: Uuid := 7861046541564897045132508964132
  const DIRECTIONAL_SHADOW_MAP_VIEW: Uuid := 10264856487964101541231456531
  const POINT_SHADOW_MAP: Uuid := 204153435154865423112313232
  const POINT_SHADOW_MAP_VIEW: Uuid := 8974689406540351354897321563484
  const SHADOW_MAP_SAMPLER: Uuid := 8713416357854635486345415311523415
  const SHADOW_TEXTURE_SAMPLER: Uuid := 78946512367469845123501009864354
  const LIGHT_VIEW_LAYOUT: Uuid := 7513015631563408941231
  const SHADOW_MAPS_LAYOUT: Uuid := 9870130163543413521356876413
  const SHADOW_MAPS_BIND_GROUP: Uuid := 78974610032413605413136786
  const LIGHT_VIEWS_BIND_GROUP: Uuid := 135648640640653130645120465123

  // ---------------------------------------------------------------------
  // Cascades and layer counts.

  /** Views per directional light: one when unpartitioned, otherwise one per
   *  cascade. */
  function Cascades(p: Partitioning): (n: nat)
    ensures n >= 1
  {
    if p == NoPartitioning then 1 else CASCADE_COUNT
  }

  /** `require_shader_defs`: `SHADOW_CASCADES` becomes the number of views
   *  each directional light takes, then the shadow filter's define is added
   *  (its name and value are a parameter); nothing else changes. */
  function RequireShaderDefs(defs: map<string, SD.ShaderDefValue>, p: Partitioning, filter: (string, SD.ShaderDefValue))
    : (r: map<string, SD.ShaderDefValue>)
    ensures r.Keys == defs.Keys + {"SHADOW_CASCADES", filter.0}
    ensures filter.0 != "SHADOW_CASCADES" ==> r["SHADOW_CASCADES"] == SD.UInt(Cascades(p))
    ensures r[filter.0] == filter.1
    ensures forall k :: k in defs && k != "SHADOW_CASCADES" && k != filter.0 ==> r[k] == defs[k]
  {
    defs["SHADOW_CASCADES" := SD.UInt(if p == NoPartitioning then 1 else CASCADE_COUNT)][filter.0 := filter.1]
  }

  /** Array layers of the directional shadow map made by `build`: one per
   *  view of every directional light, and at least one. */
  function DirectionalLayers(nDirs: nat, p: Partitioning): (n: nat)
    ensures n >= 1 && n >= nDirs * Cascades(p)
    ensures nDirs > 0 ==> n == nDirs * Cascades(p)
  {
    var layers := if p == NoPartitioning then nDirs else nDirs * CASCADE_COUNT;
    if layers < 1 then 1 else layers
  }

  /** Array layers of the point shadow map (a cube array): six per point
   *  and per spot light, and at least one cube. */
  function PointLayers(nPoints: nat, nSpots: nat): (n: nat)
    ensures n >= 6 && n % 6 == 0 && n >= 6 * (nPoints + nSpots)
    ensures nPoints + nSpots > 0 ==> n == 6 * (nPoints + nSpots)
  {
    var layers := (nPoints + nSpots) * 6;
    if layers < 6 then 6 else layers
  }

  // ---------------------------------------------------------------------
  // The views `prepare` renders, in order.

  datatype ShadowMap = DirectionalMap | PointMap

  /** One view: the light, which of its cascades or cube faces, and the map
   *  and array layer it renders to. */
  datatype Slot = Slot(light: Uuid, shadowMap: ShadowMap, index: nat, layer: nat)

  /** The cascades of the `j`-th directional light, `n` per light. */
  function CascadeSlots(id: Uuid, j: nat, n: nat): (s: seq<Slot>)
    ensures |s| == n
  {
    seq(n, k requires 0 <= k < n => Slot(id, DirectionalMap, k, j * n + k))
  }

  /** The six faces of the `i`-th point-or-spot light. */
  function FaceSlots(id: Uuid, i: nat): (s: seq<Slot>)
    ensures |s| == 6
  {
    seq(6, f requires 0 <= f < 6 => Slot(id, PointMap, f, 6 * i + f))
  }

  function DirSlots(dirs: seq<Uuid>, n: nat): (s: seq<Slot>)
    ensures |s| == |dirs| * n
  {
    if dirs == [] then []
    else
      var m := |dirs| - 1;
      assert (m + 1) * n == m * n + n;
      DirSlots(dirs[..m], n) + CascadeSlots(dirs[m], m, n)
  }

  /** The cube faces of `lights`, whose counter starts at `base`. */
  function CubeSlots(lights: seq<Uuid>, base: nat): (s: seq<Slot>)
    ensures |s| == 6 * |lights|
  {
    if lights == [] then []
    else
      var m := |lights| - 1;
      CubeSlots(lights[..m], base) + FaceSlots(lights[m], base + m)
  }

  /** Every view of one `prepare`: the directional lights' cascades, then the
   *  point lights' faces, then the spot lights' faces, the spot lights
   *  continuing the point lights' counter. */
  function Schedule(dirs: seq<Uuid>, points: seq<Uuid>, spots: seq<Uuid>, p: Partitioning): (s: seq<Slot>)
    ensures |s| == |dirs| * Cascades(p) + 6 * (|points| + |spots|)
  {
    DirSlots(dirs, Cascades(p)) + CubeSlots(points, 0) + CubeSlots(spots, |points|)
  }

  /** Cascade `k` of the `j`-th directional light renders to layer
   *  `j * n + k`. */
  lemma {:induction false} DirSlotAt(dirs: seq<Uuid>, n: nat, j: nat, k: nat)
    requires j < |dirs| && k < n
    ensures j * n + k < |dirs| * n
    ensures DirSlots(dirs, n)[j * n + k] == Slot(dirs[j], DirectionalMap, k, j * n + k)
  {
    var m := |dirs| - 1;
    assert (m + 1) * n == m * n + n;
    assert DirSlots(dirs, n) == DirSlots(dirs[..m], n) + CascadeSlots(dirs[m], m, n);
    if j < m {
      DirSlotAt(dirs[..m], n, j, k);
    }
  }

  /** Face `f` of the `i`-th light of `lights` renders to layer
   *  `6 * (base + i) + f`. */
  lemma {:induction false} CubeSlotAt(lights: seq<Uuid>, base: nat, i: nat, f: nat)
    requires i < |lights| && f < 6
    ensures CubeSlots(lights, base)[6 * i + f] == Slot(lights[i], PointMap, f, 6 * (base + i) + f)
  {
    var m := |lights| - 1;
    assert CubeSlots(lights, base) == CubeSlots(lights[..m], base) + FaceSlots(lights[m], base + m);
    if i < m {
      CubeSlotAt(lights[..m], base, i, f);
    }
  }

  /** Cascade `k` of the `j`-th directional light renders to layer
   *  `j * n + k`, and is the view at that position. */
  lemma ScheduleCascadeAt(dirs: seq<Uuid>, points: seq<Uuid>, spots: seq<Uuid>, p: Partitioning, j: nat, k: nat)
    requires j < |dirs| && k < Cascades(p)
    ensures var n := Cascades(p);
      j * n + k < |dirs| * n && Schedule(dirs, points, spots, p)[j * n + k] == Slot(dirs[j], DirectionalMap, k, j * n + k)
  {
    var n := Cascades(p);
    var cubes := CubeSlots(points, 0) + CubeSlots(spots, |points|);
    assert Schedule(dirs, points, spots, p) == DirSlots(dirs, n) + cubes;
    DirSlotAt(dirs, n, j, k);
  }

  /** Face `f` of the `i`-th point light renders to layer `6i + f`, and
   *  face `f` of the `i`-th spot light to layer `6(|points| + i) + f`: the
   *  two kinds share one counter. */
  lemma ScheduleFaceAt(dirs: seq<Uuid>, points: seq<Uuid>, spots: seq<Uuid>, p: Partitioning, i: nat, f: nat)
    requires i < |points| + |spots| && f < 6
    ensures var d := |dirs| * Cascades(p); var s := Schedule(dirs, points, spots, p);
      && (i < |points| ==> s[d + 6 * i + f] == Slot(points[i], PointMap, f, 6 * i + f))
      && (i >= |points| ==> s[d + 6 * i + f] == Slot(spots[i - |points|], PointMap, f, 6 * i + f))
  {
    var n := Cascades(p);
    var cubes := CubeSlots(points, 0) + CubeSlots(spots, |points|);
    assert Schedule(dirs, points, spots, p) == DirSlots(dirs, n) + cubes;
    if i < |points| {
      CubeSlotAt(points, 0, i, f);
      assert cubes[6 * i + f] == CubeSlots(points, 0)[6 * i + f];
    } else {
      CubeSlotAt(spots, |points|, i - |points|, f);
      assert cubes[6 * i + f] == CubeSlots(spots, |points|)[6 * (i - |points|) + f];
    }
  }

  /** Each view's layer is its position among the views of its map, so no
   *  two views of one map share a layer, and every layer lies inside the
   *  map `build` allocates for the same lights. */
  lemma {:induction false} LayersArePositions(dirs: seq<Uuid>, points: seq<Uuid>, spots: seq<Uuid>, p: Partitioning)
    ensures var s := Schedule(dirs, points, spots, p); var d := |dirs| * Cascades(p);
      forall v :: 0 <= v < |s| ==>
        && (v < d ==> s[v].shadowMap == DirectionalMap && s[v].layer == v && s[v].layer < DirectionalLayers(|dirs|, p))
        && (v >= d ==> s[v].shadowMap == PointMap && s[v].layer == v - d && s[v].layer < PointLayers(|points|, |spots|))
  {
    var s := Schedule(dirs, points, spots, p);
    var n := Cascades(p);
    var d := |dirs| * n;
    forall v | 0 <= v < |s|
      ensures v < d ==> s[v].shadowMap == DirectionalMap && s[v].layer == v && s[v].layer < DirectionalLayers(|dirs|, p)
      ensures v >= d ==> s[v].shadowMap == PointMap && s[v].layer == v - d && s[v].layer < PointLayers(|points|, |spots|)
    {
      if v < d {
        var j, k := v / n, v % n;
        assert v == j * n + k;
        ScheduleCascadeAt(dirs, points, spots, p, j, k);
      } else {
        var i, f := (v - d) / 6, (v - d) % 6;
        ScheduleFaceAt(dirs, points, spots, p, i, f);
      }
    }
  }

  lemma {:induction false} MulMono(a: nat, b: nat, n: nat)
    requires a <= b
    ensures a * n <= b * n
  {
    if n > 0 {
      MulMono(a, b, n - 1);
      assert a * n == a * (n - 1) + a && b * n == b * (n - 1) + b;
    }
  }

  // ---------------------------------------------------------------------
  // What `prepare` records for a run of views.

  /** A texture view of a shadow map: the whole array (made by `build`) or
   *  one layer of it (made by `prepare`). */
  datatype ShadowView = ArrayView(shadowMap: ShadowMap) | LayerView(shadowMap: ShadowMap, layer: nat)

  /** The texture views inserted for `slots`, the `v`-th under `ids[v]`. */
  function ViewMap(ids: seq<Uuid>, slots: seq<Slot>): map<Uuid, ShadowView>
    requires |slots| <= |ids|
  {
    if slots == [] then map[]
    else
      var m := |slots| - 1;
      ViewMap(ids, slots[..m])[ids[m] := LayerView(slots[m].shadowMap, slots[m].layer)]
  }

  /** The cameras of `slots`, back to back. */
  function CameraRaw(slots: seq<Slot>, camera: Slot -> seq<byte>): seq<byte> {
    if slots == [] then [] else CameraRaw(slots[..|slots| - 1], camera) + camera(slots[|slots| - 1])
  }

  /** The offsets the pushes of those cameras return. */
  function Starts(slots: seq<Slot>, camera: Slot -> seq<byte>): (o: seq<nat>)
    ensures |o| == |slots|
  {
    if slots == [] then []
    else
      var m := |slots| - 1;
      Starts(slots[..m], camera) + [AsU32(|CameraRaw(slots[..m], camera)|)]
  }

  /** Per directional light, the ids of its `n` cascade views. */
  function DirViews(dirs: seq<Uuid>, ids: seq<Uuid>, n: nat): map<Uuid, seq<Uuid>>
    requires |dirs| * n <= |ids|
  {
    if dirs == [] then map[]
    else
      var m := |dirs| - 1;
      assert (m + 1) * n == m * n + n;
      DirViews(dirs[..m], ids, n)[dirs[m] := ids[m * n..m * n + n]]
  }

  /** Per point-or-spot light, the ids of its six face views, the first
   *  light's starting at `ids[start]`. */
  function FaceViews(lights: seq<Uuid>, ids: seq<Uuid>, start: nat): map<Uuid, seq<Uuid>>
    requires start + 6 * |lights| <= |ids|
  {
    if lights == [] then map[]
    else
      var m := |lights| - 1;
      FaceViews(lights[..m], ids, start)[lights[m] := ids[start + 6 * m..start + 6 * m + 6]]
  }

  /** One more directional light's views, on top of earlier entries. */
  lemma {:induction false} DirViewsSnoc(dirs: seq<Uuid>, ids: seq<Uuid>, n: nat, j: nat, m0: map<Uuid, seq<Uuid>>)
    requires j < |dirs| && |dirs| * n <= |ids|
    ensures j * n + n <= |ids| && (j + 1) * n == j * n + n
    ensures (m0 + DirViews(dirs[..j], ids, n))[dirs[j] := ids[j * n..j * n + n]] == m0 + DirViews(dirs[..j + 1], ids, n)
  {
    MulMono(j + 1, |dirs|, n);
    assert (j + 1) * n == j * n + n;
    assert dirs[..j + 1][..j] == dirs[..j];
  }

  /** One more point-or-spot light's faces, on top of earlier entries. */
  lemma {:induction false} FaceViewsSnoc(lights: seq<Uuid>, ids: seq<Uuid>, start: nat, i: nat, m0: map<Uuid, seq<Uuid>>)
    requires i < |lights| && start + 6 * |lights| <= |ids|
    ensures (m0 + FaceViews(lights[..i], ids, start))[lights[i] := ids[start + 6 * i..start + 6 * i + 6]]
         == m0 + FaceViews(lights[..i + 1], ids, start)
  {
    assert lights[..i + 1][..i] == lights[..i];
  }

  /** One more light's cube faces. */
  lemma {:induction false} CubeSlotsSnoc(lights: seq<Uuid>, base: nat, i: nat, pointIndex: nat)
    requires i < |lights| && pointIndex == base + i
    ensures CubeSlots(lights[..i + 1], base) == CubeSlots(lights[..i], base) + FaceSlots(lights[i], pointIndex)
  {
    assert lights[..i + 1][..i] == lights[..i];
  }

  /** One more light of the point-light loop, stated on the values the loop
   *  accumulates: the views done, the raw bytes pushed and the face ids. */
  lemma {:induction false} CubeStep(lights: seq<Uuid>, i: nat, base: nat, pointIndex: nat, next: nat, at: nat, ids: seq<Uuid>,
                                    camera: Slot -> seq<byte>, done0: seq<Slot>, raw0: seq<byte>, pv0: map<Uuid, seq<Uuid>>)
    requires i < |lights| && pointIndex == base + i && at == next + 6 * i && next + 6 * |lights| <= |ids|
    ensures done0 + CubeSlots(lights[..i], base) + FaceSlots(lights[i], pointIndex) == done0 + CubeSlots(lights[..i + 1], base)
    ensures raw0 + CameraRaw(CubeSlots(lights[..i], base), camera) + CameraRaw(FaceSlots(lights[i], pointIndex), camera)
         == raw0 + CameraRaw(CubeSlots(lights[..i + 1], base), camera)
    ensures at + 6 <= |ids|
    ensures (pv0 + FaceViews(lights[..i], ids, next))[lights[i] := ids[at..at + 6]] == pv0 + FaceViews(lights[..i + 1], ids, next)
  {
    var cubes := CubeSlots(lights[..i], base);
    var faces := FaceSlots(lights[i], pointIndex);
    CubeSlotsSnoc(lights, base, i, pointIndex);
    CameraRawAppend(cubes, faces, camera);
    assert done0 + cubes + faces == done0 + (cubes + faces);
    assert raw0 + CameraRaw(cubes, camera) + CameraRaw(faces, camera) == raw0 + (CameraRaw(cubes, camera) + CameraRaw(faces, camera));
    FaceViewsSnoc(lights, ids, next, i, pv0);
  }

  /** One more face of a light, stated on the views done and the raw bytes
   *  pushed. */
  lemma {:induction false} FaceStep(id: Uuid, pointIndex: nat, f: nat, camera: Slot -> seq<byte>, done0: seq<Slot>, raw0: seq<byte>)
    requires f < 6
    ensures FaceSlots(id, pointIndex)[f] == Slot(id, PointMap, f, pointIndex * 6 + f)
    ensures done0 + FaceSlots(id, pointIndex)[..f] + [FaceSlots(id, pointIndex)[f]] == done0 + FaceSlots(id, pointIndex)[..f + 1]
    ensures raw0 + CameraRaw(FaceSlots(id, pointIndex)[..f], camera) + camera(FaceSlots(id, pointIndex)[f])
         == raw0 + CameraRaw(FaceSlots(id, pointIndex)[..f + 1], camera)
  {
    var faces := FaceSlots(id, pointIndex);
    assert faces[..f + 1] == faces[..f] + [faces[f]];
    CameraRawSnoc(faces[..f], faces[f], camera);
    assert done0 + faces[..f] + [faces[f]] == done0 + (faces[..f] + [faces[f]]);
    assert raw0 + CameraRaw(faces[..f], camera) + camera(faces[f]) == raw0 + (CameraRaw(faces[..f], camera) + camera(faces[f]));
  }

  /** One more directional light's cascades. */
  lemma {:induction false} DirSlotsSnoc(dirs: seq<Uuid>, n: nat, j: nat)
    requires j < |dirs|
    ensures DirSlots(dirs[..j + 1], n) == DirSlots(dirs[..j], n) + CascadeSlots(dirs[j], j, n)
  {
    assert dirs[..j + 1][..j] == dirs[..j];
  }

  /** One more view: its texture view, its camera and its offset. */
  lemma EmitStep(ids: seq<Uuid>, done: seq<Slot>, s: Slot, camera: Slot -> seq<byte>)
    requires |done| < |ids|
    ensures ViewMap(ids, done + [s]) == ViewMap(ids, done)[ids[|done|] := LayerView(s.shadowMap, s.layer)]
    ensures CameraRaw(done + [s], camera) == CameraRaw(done, camera) + camera(s)
    ensures Starts(done + [s], camera) == Starts(done, camera) + [AsU32(|CameraRaw(done, camera)|)]
  {
    assert (done + [s])[..|done|] == done;
  }

  lemma CameraRawSnoc(a: seq<Slot>, s: Slot, camera: Slot -> seq<byte>)
    ensures CameraRaw(a + [s], camera) == CameraRaw(a, camera) + camera(s)
  {
    assert (a + [s])[..|a|] == a;
  }

  lemma {:induction false} CameraRawAppend(a: seq<Slot>, b: seq<Slot>, camera: Slot -> seq<byte>)
    ensures CameraRaw(a + b, camera) == CameraRaw(a, camera) + CameraRaw(b, camera)
  {
    if b != [] {
      var m := |b| - 1;
      assert (a + b)[..|a + b| - 1] == a + b[..m];
      assert (a + b)[|a + b| - 1] == b[m];
      CameraRawAppend(a, b[..m], camera);
      assert CameraRaw(b, camera) == CameraRaw(b[..m], camera) + camera(b[m]);
      assert CameraRaw(a + b, camera) == CameraRaw(a + b[..m], camera) + camera(b[m]);
    } else {
      assert a + b == a;
    }
  }

  /** The light-view buffer is the cascade-view buffer followed by the
   *  point-light-view buffer. */
  lemma LightViewsSplit(dirs: seq<Uuid>, points: seq<Uuid>, spots: seq<Uuid>, p: Partitioning, camera: Slot -> seq<byte>)
    ensures CameraRaw(Schedule(dirs, points, spots, p), camera)
         == CameraRaw(DirSlots(dirs, Cascades(p)), camera)
          + (CameraRaw(CubeSlots(points, 0), camera) + CameraRaw(CubeSlots(spots, |points|), camera))
  {
    var cubes := CubeSlots(points, 0) + CubeSlots(spots, |points|);
    assert Schedule(dirs, points, spots, p) == DirSlots(dirs, Cascades(p)) + cubes;
    CameraRawAppend(DirSlots(dirs, Cascades(p)), cubes, camera);
    CameraRawAppend(CubeSlots(points, 0), CubeSlots(spots, |points|), camera);
  }

  /** While the buffer stays under 4 GiB, the `v`-th offset is where the
   *  `v`-th view's camera starts in the light-view buffer. */
  lemma {:induction false} OffsetsLocateViews(slots: seq<Slot>, camera: Slot -> seq<byte>, v: nat)
    requires v < |slots| && |CameraRaw(slots, camera)| < 0x1_0000_0000
    ensures Starts(slots, camera)[v] + |camera(slots[v])| <= |CameraRaw(slots, camera)|
    ensures CameraRaw(slots, camera)[Starts(slots, camera)[v]..Starts(slots, camera)[v] + |camera(slots[v])|] == camera(slots[v])
  {
    var m := |slots| - 1;
    var init := slots[..m];
    assert CameraRaw(slots, camera) == CameraRaw(init, camera) + camera(slots[m]);
    if v < m {
      OffsetsLocateViews(init, camera, v);
      assert slots[v] == init[v];
    }
  }

  /** `ids` are pairwise distinct (fresh random ids). */
  predicate Distinct(ids: seq<Uuid>) {
    forall a, b :: 0 <= a < b < |ids| ==> ids[a] != ids[b]
  }

  /** With distinct ids, the `v`-th view's id leads to its layer. */
  lemma {:induction false} ViewMapAt(ids: seq<Uuid>, slots: seq<Slot>, v: nat)
    requires |slots| <= |ids| && Distinct(ids) && v < |slots|
    ensures ids[v] in ViewMap(ids, slots) && ViewMap(ids, slots)[ids[v]] == LayerView(slots[v].shadowMap, slots[v].layer)
  {
    var m := |slots| - 1;
    if v < m {
      ViewMapAt(ids, slots[..m], v);
    }
  }

  /** With distinct lights, the `j`-th directional light's views are ids
   *  `j * n` to `j * n + n`. */
  lemma {:induction false} DirViewsAt(dirs: seq<Uuid>, ids: seq<Uuid>, n: nat, j: nat)
    requires |dirs| * n <= |ids| && Distinct(dirs) && j < |dirs|
    ensures (j + 1) * n <= |dirs| * n
    ensures dirs[j] in DirViews(dirs, ids, n) && DirViews(dirs, ids, n)[dirs[j]] == ids[j * n..j * n + n]
  {
    var m := |dirs| - 1;
    MulMono(j + 1, |dirs|, n);
    assert (j + 1) * n == j * n + n;
    if j < m {
      DirViewsAt(dirs[..m], ids, n, j);
    }
  }

  lemma {:induction false} FaceViewsAt(lights: seq<Uuid>, ids: seq<Uuid>, start: nat, i: nat)
    requires start + 6 * |lights| <= |ids| && Distinct(lights) && i < |lights|
    ensures lights[i] in FaceViews(lights, ids, start)
    ensures FaceViews(lights, ids, start)[lights[i]] == ids[start + 6 * i..start + 6 * i + 6]
  {
    var m := |lights| - 1;
    if i < m {
      FaceViewsAt(lights[..m], ids, start, i);
    }
  }

  // ---------------------------------------------------------------------
  // The Poisson table of `build`.

  /** `x * 2. - 1.`: a sample in [0, 1] moved to [-1, 1]. */
  function Centered(x: real): real {
    x * 2.0 - 1.0
  }

  function Disk2(p2: seq<Vec2>): (d: seq<Vec4>)
    ensures |d| == |p2|
  {
    if p2 == [] then []
    else
      var x := p2[|p2| - 1];
      Disk2(p2[..|p2| - 1]) + [Vec4(Centered(x.x), Centered(x.y), 0.0, 0.0)]
  }

  function Disk3(p3: seq<Vec3>): (d: seq<Vec4>)
    ensures |d| == |p3|
  {
    if p3 == [] then []
    else
      var x := p3[|p3| - 1];
      Disk3(p3[..|p3| - 1]) + [Vec4(Centered(x.x), Centered(x.y), Centered(x.z), 0.0)]
  }

  function Take<T>(s: seq<T>, n: nat): (r: seq<T>)
    ensures |r| <= n && |r| <= |s| && (|r| == n || |r| == |s|)
    ensures r == s[..|r|]
  {
    if n < |s| then s[..n] else s
  }

  /** The table: at most `samples` 2D samples, then at most `samples` 3D
   *  samples, each a `Vec4`. */
  function PoissonDisk(p2: seq<Vec2>, p3: seq<Vec3>, samples: nat): seq<Vec4> {
    Disk2(Take(p2, samples)) + Disk3(Take(p3, samples))
  }

  /** The bytes of a run of `Vec4`s (their encoding is a parameter). */
  function Encoded(vs: seq<Vec4>, enc: Vec4 -> seq<byte>): seq<byte> {
    if vs == [] then [] else Encoded(vs[..|vs| - 1], enc) + enc(vs[|vs| - 1])
  }

  lemma {:induction false} EncodedAppend(a: seq<Vec4>, b: seq<Vec4>, enc: Vec4 -> seq<byte>)
    ensures Encoded(a + b, enc) == Encoded(a, enc) + Encoded(b, enc)
  {
    if b != [] {
      var m := |b| - 1;
      assert (a + b)[..|a + b| - 1] == a + b[..m];
      assert (a + b)[|a + b| - 1] == b[m];
      EncodedAppend(a, b[..m], enc);
      assert Encoded(b, enc) == Encoded(b[..m], enc) + enc(b[m]);
      assert Encoded(a + b, enc) == Encoded(a + b[..m], enc) + enc(b[m]);
    } else {
      assert a + b == a;
    }
  }

  lemma {:induction false} Disk2At(p2: seq<Vec2>, i: nat)
    requires i < |p2|
    ensures Disk2(p2)[i] == Vec4(Centered(p2[i].x), Centered(p2[i].y), 0.0, 0.0)
  {
    if i < |p2| - 1 {
      Disk2At(p2[..|p2| - 1], i);
    }
  }

  lemma {:induction false} Disk3At(p3: seq<Vec3>, i: nat)
    requires i < |p3|
    ensures Disk3(p3)[i] == Vec4(Centered(p3[i].x), Centered(p3[i].y), Centered(p3[i].z), 0.0)
  {
    if i < |p3| - 1 {
      Disk3At(p3[..|p3| - 1], i);
    }
  }

  /** The layout of the table: `k2 = min(samples, |p2|)` planar entries
   *  with `z = w = 0`, then `min(samples, |p3|)` spatial entries with
   *  `w = 0`, each coordinate moved from [0, 1] to [-1, 1]. */
  lemma PoissonLayout(p2: seq<Vec2>, p3: seq<Vec3>, samples: nat, i: nat)
    ensures var d := PoissonDisk(p2, p3, samples); var k2 := |Take(p2, samples)|; var k3 := |Take(p3, samples)|;
      && |d| == k2 + k3 && k2 <= samples && k3 <= samples
      && (i < k2 ==> d[i] == Vec4(Centered(p2[i].x), Centered(p2[i].y), 0.0, 0.0))
      && (i < k3 ==> d[k2 + i] == Vec4(Centered(p3[i].x), Centered(p3[i].y), Centered(p3[i].z), 0.0))
  {
    var t2, t3 := Take(p2, samples), Take(p3, samples);
    if i < |t2| {
      Disk2At(t2, i);
    }
    if i < |t3| {
      Disk3At(t3, i);
    }
  }

  predicate Unit(x: real) {
    0.0 <= x <= 1.0
  }

  predicate Signed(x: real) {
    -1.0 <= x <= 1.0
  }

  /** Samples in the unit square and cube give a table inside [-1, 1]. */
  lemma PoissonInRange(p2: seq<Vec2>, p3: seq<Vec3>, samples: nat)
    requires forall i :: 0 <= i < |p2| ==> Unit(p2[i].x) && Unit(p2[i].y)
    requires forall i :: 0 <= i < |p3| ==> Unit(p3[i].x) && Unit(p3[i].y) && Unit(p3[i].z)
    ensures var d := PoissonDisk(p2, p3, samples);
      forall i :: 0 <= i < |d| ==> Signed(d[i].x) && Signed(d[i].y) && Signed(d[i].z) && d[i].w == 0.0
  {
    var d := PoissonDisk(p2, p3, samples);
    var k2 := |Take(p2, samples)|;
    forall i | 0 <= i < |d|
      ensures Signed(d[i].x) && Signed(d[i].y) && Signed(d[i].z) && d[i].w == 0.0
    {
      if i < k2 {
        PoissonLayout(p2, p3, samples, i);
      } else {
        PoissonLayout(p2, p3, samples, i - k2);
      }
    }
  }

  // ---------------------------------------------------------------------
  // What `draw` renders.

  /** One shadow pass: the texture view it renders into and the dynamic
   *  offset it binds for the light-view buffer. */
  datatype Pass = Pass(target: ShadowView, offset: nat)

  /** One call of the `_draw` closure on texture view `view`: the view is
   *  looked up, then the offset at `view_index`, the number of passes
   *  before it, is bound. */
  function DrawPass(acc: Result<seq<Pass>, Panic>, tv: map<Uuid, ShadowView>, offsets: seq<nat>, view: Uuid)
    : Result<seq<Pass>, Panic>
  {
    if acc.Err? then acc
    else if view !in tv then Err(MissingKey)
    else if |acc.value| >= |offsets| then Err(IndexOutOfBounds)
    else Ok(acc.value + [Pass(tv[view], offsets[|acc.value|])])
  }

  function DrawViews(acc: Result<seq<Pass>, Panic>, tv: map<Uuid, ShadowView>, offsets: seq<nat>, views: seq<Uuid>)
    : (r: Result<seq<Pass>, Panic>)
    ensures r.Err? ==> r == acc || r.error in {MissingKey, IndexOutOfBounds}
  {
    if views == [] then acc
    else DrawPass(DrawViews(acc, tv, offsets, views[..|views| - 1]), tv, offsets, views[|views| - 1])
  }

  /** The views drawn for one light: only the first when unpartitioned. */
  function Selected(views: seq<Uuid>, firstOnly: bool): Result<seq<Uuid>, Panic> {
    if !firstOnly then Ok(views)
    else if views == [] then Err(UnwrapNone)
    else Ok([views[0]])
  }

  /** The passes for `lights`, each light's views looked up in `lightViews`. */
  function DrawLights(acc: Result<seq<Pass>, Panic>, lightViews: map<Uuid, seq<Uuid>>, lights: seq<Uuid>, firstOnly: bool,
                      tv: map<Uuid, ShadowView>, offsets: seq<nat>): (r: Result<seq<Pass>, Panic>)
    ensures r.Err? ==> r == acc || r.error in {MissingKey, IndexOutOfBounds} || (firstOnly && r.error == UnwrapNone)
  {
    if lights == [] then acc
    else
      var prev := DrawLights(acc, lightViews, lights[..|lights| - 1], firstOnly, tv, offsets);
      var id := lights[|lights| - 1];
      if prev.Err? then prev
      else if id !in lightViews then Err(MissingKey)
      else
        match Selected(lightViews[id], firstOnly)
        case Err(e) => Err(e)
        case Ok(vs) => DrawViews(prev, tv, offsets, vs)
  }

  /** `draw`: nothing when the light-view bind group is missing; otherwise
   *  the directional lights' views, then the point lights' and the spot
   *  lights' faces, `view_index` counting passes from 0. It panics only on
   *  a missing key, an offset index past the end, or (unpartitioned) a
   *  directional light without views. */
  function DrawAll(dirViews: map<Uuid, seq<Uuid>>, pointViews: map<Uuid, seq<Uuid>>, dirs: seq<Uuid>, cubes: seq<Uuid>,
                   p: Partitioning, tv: map<Uuid, ShadowView>, offsets: seq<nat>, bound: bool): (r: Result<seq<Pass>, Panic>)
    ensures !bound ==> r == Ok([])
    ensures r.Err? ==> r.error in {MissingKey, IndexOutOfBounds, UnwrapNone}
    ensures r.Err? && p != NoPartitioning ==> r.error in {MissingKey, IndexOutOfBounds}
  {
    if !bound then Ok([])
    else DrawLights(DrawLights(Ok([]), dirViews, dirs, p == NoPartitioning, tv, offsets), pointViews, cubes, false, tv, offsets)
  }

  lemma {:induction false} DrawViewsFromErr(e: Panic, tv: map<Uuid, ShadowView>, offsets: seq<nat>, views: seq<Uuid>)
    ensures DrawViews(Err(e), tv, offsets, views) == Err(e)
  {
    if views != [] {
      DrawViewsFromErr(e, tv, offsets, views[..|views| - 1]);
    }
  }

  lemma {:induction false} DrawLightsFromErr(e: Panic, lightViews: map<Uuid, seq<Uuid>>, lights: seq<Uuid>, firstOnly: bool,
                                             tv: map<Uuid, ShadowView>, offsets: seq<nat>)
    ensures DrawLights(Err(e), lightViews, lights, firstOnly, tv, offsets) == Err(e)
  {
    if lights != [] {
      DrawLightsFromErr(e, lightViews, lights[..|lights| - 1], firstOnly, tv, offsets);
    }
  }

  /** Once a pass panics, the later views change nothing. */
  lemma {:induction false} DrawViewsSticky(acc: Result<seq<Pass>, Panic>, tv: map<Uuid, ShadowView>, offsets: seq<nat>,
                                           views: seq<Uuid>, k: nat)
    requires k <= |views| && DrawViews(acc, tv, offsets, views[..k]).Err?
    ensures DrawViews(acc, tv, offsets, views) == DrawViews(acc, tv, offsets, views[..k])
    decreases |views| - k
  {
    if k < |views| {
      assert views[..k + 1][..k] == views[..k];
      DrawViewsSticky(acc, tv, offsets, views, k + 1);
    } else {
      assert views[..k] == views;
    }
  }

  lemma {:induction false} DrawLightsSticky(acc: Result<seq<Pass>, Panic>, lightViews: map<Uuid, seq<Uuid>>, lights: seq<Uuid>,
                                            firstOnly: bool, tv: map<Uuid, ShadowView>, offsets: seq<nat>, k: nat)
    requires k <= |lights| && DrawLights(acc, lightViews, lights[..k], firstOnly, tv, offsets).Err?
    ensures DrawLights(acc, lightViews, lights, firstOnly, tv, offsets) == DrawLights(acc, lightViews, lights[..k], firstOnly, tv, offsets)
    decreases |lights| - k
  {
    if k < |lights| {
      assert lights[..k + 1][..k] == lights[..k];
      DrawLightsSticky(acc, lightViews, lights, firstOnly, tv, offsets, k + 1);
    } else {
      assert lights[..k] == lights;
    }
  }

  /** The first `k` passes when pass `v` renders into view `ids[v]` and
   *  binds `offsets[v]`. */
  function Expected(ids: seq<Uuid>, tv: map<Uuid, ShadowView>, offsets: seq<nat>, k: nat): (r: seq<Pass>)
    requires k <= |ids| && k <= |offsets| && forall v :: 0 <= v < k ==> ids[v] in tv
    ensures |r| == k && forall v :: 0 <= v < k ==> r[v] == Pass(tv[ids[v]], offsets[v])
  {
    seq(k, v requires 0 <= v < k => Pass(tv[ids[v]], offsets[v]))
  }

  /** Drawing the next `c` views of `ids`, all known, after `base` passes
   *  gives the next `c` expected passes. */
  lemma {:induction false} DrawViewsOk(ids: seq<Uuid>, tv: map<Uuid, ShadowView>, offsets: seq<nat>, base: nat, c: nat)
    requires base + c <= |ids| && base + c <= |offsets| && forall v :: 0 <= v < base + c ==> ids[v] in tv
    ensures DrawViews(Ok(Expected(ids, tv, offsets, base)), tv, offsets, ids[base..base + c])
         == Ok(Expected(ids, tv, offsets, base + c))
  {
    if c > 0 {
      DrawViewsOk(ids, tv, offsets, base, c - 1);
      assert ids[base..base + c][..c - 1] == ids[base..base + c - 1];
      var k := base + c - 1;
      assert Expected(ids, tv, offsets, k) + [Pass(tv[ids[k]], offsets[k])] == Expected(ids, tv, offsets, k + 1);
    }
  }

  /** One more cube light after lights that all drew: its six views drawn
   *  after the passes so far. */
  lemma DrawLightsSnoc(acc: Result<seq<Pass>, Panic>, pv: map<Uuid, seq<Uuid>>, cubes: seq<Uuid>,
                       tv: map<Uuid, ShadowView>, offsets: seq<nat>, passes: seq<Pass>)
    requires cubes != [] && cubes[|cubes| - 1] in pv
    requires DrawLights(acc, pv, cubes[..|cubes| - 1], false, tv, offsets) == Ok(passes)
    ensures DrawLights(acc, pv, cubes, false, tv, offsets) == DrawViews(Ok(passes), tv, offsets, pv[cubes[|cubes| - 1]])
  {
  }

  /** The cube lights' passes continue the count where the directional
   *  lights' stopped. */
  lemma {:induction false} DrawCubesInOrder(cubes: seq<Uuid>, pv: map<Uuid, seq<Uuid>>, tv: map<Uuid, ShadowView>,
                                            offsets: seq<nat>, ids: seq<Uuid>, d: nat)
    requires d + 6 * |cubes| <= |ids| && d + 6 * |cubes| <= |offsets|
    requires forall v :: 0 <= v < d + 6 * |cubes| ==> ids[v] in tv
    requires forall i :: 0 <= i < |cubes| ==> cubes[i] in pv && pv[cubes[i]] == ids[d + 6 * i..d + 6 * i + 6]
    ensures DrawLights(Ok(Expected(ids, tv, offsets, d)), pv, cubes, false, tv, offsets)
         == Ok(Expected(ids, tv, offsets, d + 6 * |cubes|))
  {
    if cubes != [] {
      var m := |cubes| - 1;
      var at := d + 6 * m;
      var init := cubes[..m];
      assert forall i :: 0 <= i < m ==> init[i] == cubes[i];
      DrawCubesInOrder(init, pv, tv, offsets, ids, d);
      DrawViewsOk(ids, tv, offsets, at, 6);
      assert pv[cubes[m]] == ids[at..at + 6];
      DrawLightsSnoc(Ok(Expected(ids, tv, offsets, d)), pv, cubes, tv, offsets, Expected(ids, tv, offsets, at));
      assert at + 6 == d + 6 * |cubes|;
    }
  }

  lemma {:induction false} DrawDirsInOrder(dirs: seq<Uuid>, dv: map<Uuid, seq<Uuid>>, p: Partitioning, tv: map<Uuid, ShadowView>,
                                           offsets: seq<nat>, ids: seq<Uuid>)
    requires |dirs| <= |ids| && |dirs| <= |offsets|
    requires forall v :: 0 <= v < |dirs| ==> ids[v] in tv
    requires forall j :: 0 <= j < |dirs| ==> dirs[j] in dv && dv[dirs[j]] == ids[j..j + 1]
    ensures DrawLights(Ok([]), dv, dirs, p == NoPartitioning, tv, offsets) == Ok(Expected(ids, tv, offsets, |dirs|))
  {
    if dirs != [] {
      var m := |dirs| - 1;
      DrawDirsInOrder(dirs[..m], dv, p, tv, offsets, ids);
      assert [ids[m..m + 1][0]] == ids[m..m + 1];
      DrawViewsOk(ids, tv, offsets, m, 1);
    }
  }

  /** `draw` reads the views in the order `prepare` made them: directional
   *  light `j`'s view is pass `j`, face `f` of the `i`-th point-or-spot
   *  light is pass `d + 6i + f` where `d` is the number of directional
   *  lights, and pass `v` binds `offsets[v]`. */
  lemma {:induction false} DrawReadsViewsInOrder(dirs: seq<Uuid>, cubes: seq<Uuid>, p: Partitioning, dv: map<Uuid, seq<Uuid>>,
                              pv: map<Uuid, seq<Uuid>>, tv: map<Uuid, ShadowView>, offsets: seq<nat>, ids: seq<Uuid>, d: nat, k: nat)
    requires d == |dirs| && k == d + 6 * |cubes| && k <= |ids| && k <= |offsets|
    requires forall v :: 0 <= v < k ==> ids[v] in tv
    requires forall j :: 0 <= j < |dirs| ==> dirs[j] in dv && dv[dirs[j]] == ids[j..j + 1]
    requires forall i :: 0 <= i < |cubes| ==> cubes[i] in pv && pv[cubes[i]] == ids[d + 6 * i..d + 6 * i + 6]
    ensures DrawAll(dv, pv, dirs, cubes, p, tv, offsets, true) == Ok(Expected(ids, tv, offsets, k))
  {
    var first := DrawLights(Ok([]), dv, dirs, p == NoPartitioning, tv, offsets);
    var e := Expected(ids, tv, offsets, |dirs|);
    assert first == Ok(e) by {
      DrawDirsInOrder(dirs, dv, p, tv, offsets, ids);
    }
    assert DrawLights(Ok(e), pv, cubes, false, tv, offsets) == Ok(Expected(ids, tv, offsets, k)) by {
      DrawCubesInOrder(cubes, pv, tv, offsets, ids, |dirs|);
    }
  }

  lemma {:induction false} FaceViewsKeys(lights: seq<Uuid>, ids: seq<Uuid>, start: nat, id: Uuid)
    requires start + 6 * |lights| <= |ids|
    ensures id in FaceViews(lights, ids, start) <==> id in lights
  {
    if lights != [] {
      var m := |lights| - 1;
      FaceViewsKeys(lights[..m], ids, start, id);
      assert lights == lights[..m] + [lights[m]];
    }
  }

  /** The lights of a list without repeats are in one part only. */
  lemma {:induction false} DistinctParts(a: seq<Uuid>, b: seq<Uuid>)
    requires Distinct(a + b)
    ensures Distinct(a) && Distinct(b) && forall x :: x in a ==> x !in b
  {
    forall i, j | 0 <= i < j < |a|
      ensures a[i] != a[j]
    {
      assert (a + b)[i] == a[i] && (a + b)[j] == a[j];
    }
    forall i, j | 0 <= i < j < |b|
      ensures b[i] != b[j]
    {
      assert (a + b)[|a| + i] == b[i] && (a + b)[|a| + j] == b[j];
    }
    forall i, j | 0 <= i < |a| && 0 <= j < |b|
      ensures a[i] != b[j]
    {
      assert (a + b)[i] == a[i] && (a + b)[|a| + j] == b[j];
    }
  }

  /** After `prepare`, the `i`-th point-or-spot light's faces are the six
   *  views from `d + 6i`. */
  lemma {:induction false} PreparedFaces(points: seq<Uuid>, spots: seq<Uuid>, ids: seq<Uuid>, d: nat, pv0: map<Uuid, seq<Uuid>>, i: nat)
    requires d + 6 * (|points| + |spots|) <= |ids| && Distinct(points + spots) && i < |points| + |spots|
    ensures var pv := pv0 + FaceViews(points, ids, d) + FaceViews(spots, ids, d + 6 * |points|);
      (points + spots)[i] in pv && pv[(points + spots)[i]] == ids[d + 6 * i..d + 6 * i + 6]
  {
    DistinctParts(points, spots);
    if i < |points| {
      FaceViewsAt(points, ids, d, i);
      FaceViewsKeys(spots, ids, d + 6 * |points|, points[i]);
    } else {
      FaceViewsAt(spots, ids, d + 6 * |points|, i - |points|);
    }
  }

  /** After `prepare`, every view id of the schedule names its layer view. */
  lemma {:induction false} PreparedTextureViews(ids: seq<Uuid>, s: seq<Slot>, tv0: map<Uuid, ShadowView>)
    requires |ids| == |s| && Distinct(ids)
    ensures forall v :: 0 <= v < |s| ==> ids[v] in tv0 + ViewMap(ids, s) && (tv0 + ViewMap(ids, s))[ids[v]] == LayerView(s[v].shadowMap, s[v].layer)
  {
    forall v | 0 <= v < |s|
      ensures ids[v] in tv0 + ViewMap(ids, s) && (tv0 + ViewMap(ids, s))[ids[v]] == LayerView(s[v].shadowMap, s[v].layer)
    {
      ViewMapAt(ids, s, v);
    }
  }

  /** After `prepare`, directional light `j` has the one view `ids[j]`. */
  lemma {:induction false} PreparedDirViews(dirs: seq<Uuid>, ids: seq<Uuid>, p: Partitioning, dv0: map<Uuid, seq<Uuid>>)
    requires |dirs| <= |ids| && Distinct(dirs)
    ensures Cascades(p) == 1
    ensures forall j :: 0 <= j < |dirs| ==>
      dirs[j] in dv0 + DirViews(dirs, ids, Cascades(p)) && (dv0 + DirViews(dirs, ids, Cascades(p)))[dirs[j]] == ids[j..j + 1]
  {
    var n := Cascades(p);
    assert n == 1;
    forall j | 0 <= j < |dirs|
      ensures dirs[j] in dv0 + DirViews(dirs, ids, n) && (dv0 + DirViews(dirs, ids, n))[dirs[j]] == ids[j..j + 1]
    {
      DirViewsAt(dirs, ids, n, j);
    }
  }

  /** After `prepare`, the point-or-spot light `i` has the six views from
   *  `d + 6i`. */
  lemma {:induction false} PreparedCubeViews(points: seq<Uuid>, spots: seq<Uuid>, ids: seq<Uuid>, d: nat, pv0: map<Uuid, seq<Uuid>>)
    requires d + 6 * (|points| + |spots|) <= |ids| && Distinct(points + spots)
    ensures var pv := pv0 + FaceViews(points, ids, d) + FaceViews(spots, ids, d + 6 * |points|);
      forall i :: 0 <= i < |points + spots| ==> (points + spots)[i] in pv && pv[(points + spots)[i]] == ids[d + 6 * i..d + 6 * i + 6]
  {
    forall i | 0 <= i < |points + spots|
      ensures var pv := pv0 + FaceViews(points, ids, d) + FaceViews(spots, ids, d + 6 * |points|);
        (points + spots)[i] in pv && pv[(points + spots)[i]] == ids[d + 6 * i..d + 6 * i + 6]
    {
      PreparedFaces(points, spots, ids, d, pv0, i);
    }
  }

  /** After `prepare` every lookup `draw` makes succeeds: each view id
   *  names a view, directional light `j` has view `ids[j]`, and the `i`-th
   *  point-or-spot light the six views from `d + 6i`, `d` being the
   *  directional lights' views. */
  lemma {:induction false} PreparedLookups(dirs: seq<Uuid>, points: seq<Uuid>, spots: seq<Uuid>, p: Partitioning, ids: seq<Uuid>,
                                           s: seq<Slot>, tv0: map<Uuid, ShadowView>, dv0: map<Uuid, seq<Uuid>>,
                                           pv0: map<Uuid, seq<Uuid>>)
    requires |ids| == |s| == |dirs| * Cascades(p) + 6 * (|points| + |spots|)
    requires Distinct(ids) && Distinct(dirs) && Distinct(points + spots)
    ensures |dirs| * Cascades(p) == |dirs| && |dirs| + 6 * |points + spots| == |s|
    ensures forall v :: 0 <= v < |s| ==> ids[v] in tv0 + ViewMap(ids, s)
    ensures var dv := dv0 + DirViews(dirs, ids, Cascades(p));
      forall j :: 0 <= j < |dirs| ==> dirs[j] in dv && dv[dirs[j]] == ids[j..j + 1]
    ensures var d := |dirs| * Cascades(p);
      var pv := pv0 + FaceViews(points, ids, d) + FaceViews(spots, ids, d + 6 * |points|);
      forall i :: 0 <= i < |points + spots| ==>
        (points + spots)[i] in pv && pv[(points + spots)[i]] == ids[d + 6 * i..d + 6 * i + 6]
  {
    PreparedTextureViews(ids, s, tv0);
    PreparedDirViews(dirs, ids, p, dv0);
    PreparedCubeViews(points, spots, ids, |dirs| * Cascades(p), pv0);
  }

  /** `draw` over the maps `prepare` fills for views `s` with ids `ids`
   *  records one pass per view, in view order. */
  lemma {:induction false} DrawPreparedViews(dirs: seq<Uuid>, points: seq<Uuid>, spots: seq<Uuid>, p: Partitioning, ids: seq<Uuid>,
                          s: seq<Slot>, offsets: seq<nat>, tv0: map<Uuid, ShadowView>, dv0: map<Uuid, seq<Uuid>>,
                          pv0: map<Uuid, seq<Uuid>>)
    requires |ids| == |s| == |offsets| == |dirs| * Cascades(p) + 6 * (|points| + |spots|)
    requires Distinct(ids) && Distinct(dirs) && Distinct(points + spots)
    ensures forall v :: 0 <= v < |s| ==> ids[v] in tv0 + ViewMap(ids, s)
    ensures var n := Cascades(p); var d := |dirs| * n;
      DrawAll(dv0 + DirViews(dirs, ids, n), pv0 + FaceViews(points, ids, d) + FaceViews(spots, ids, d + 6 * |points|),
              dirs, points + spots, p, tv0 + ViewMap(ids, s), offsets, true)
      == Ok(Expected(ids, tv0 + ViewMap(ids, s), offsets, |s|))
  {
    var dv := dv0 + DirViews(dirs, ids, Cascades(p));
    var pv := pv0 + FaceViews(points, ids, |dirs| * Cascades(p)) + FaceViews(spots, ids, |dirs| * Cascades(p) + 6 * |points|);
    var tv := tv0 + ViewMap(ids, s);
    var d := |dirs| * Cascades(p);
    PreparedLookups(dirs, points, spots, p, ids, s, tv0, dv0, pv0);
    DrawReadsViewsInOrder(dirs, points + spots, p, dv, pv, tv, offsets, ids, d, |s|);
  }

  /** Those passes render each view into its own layer. */
  lemma {:induction false} ExpectedLayers(ids: seq<Uuid>, s: seq<Slot>, offsets: seq<nat>, tv0: map<Uuid, ShadowView>)
    requires |ids| == |s| == |offsets| && Distinct(ids)
    requires forall v :: 0 <= v < |s| ==> ids[v] in tv0 + ViewMap(ids, s)
    ensures var e := Expected(ids, tv0 + ViewMap(ids, s), offsets, |s|);
      forall v :: 0 <= v < |s| ==> e[v] == Pass(LayerView(s[v].shadowMap, s[v].layer), offsets[v])
  {
    PreparedTextureViews(ids, s, tv0);
  }

  /** After a `prepare` that starts from empty offsets, `draw` renders the
   *  `v`-th view of the schedule into its own layer of its own map and
   *  binds the offset at which that view's camera starts. */
  lemma {:induction false} PrepareThenDraw(dirs: seq<Uuid>, points: seq<Uuid>, spots: seq<Uuid>, p: Partitioning, ids: seq<Uuid>,
                        camera: Slot -> seq<byte>, tv0: map<Uuid, ShadowView>, dv0: map<Uuid, seq<Uuid>>, pv0: map<Uuid, seq<Uuid>>)
    requires |ids| == |Schedule(dirs, points, spots, p)| && Distinct(ids) && Distinct(dirs) && Distinct(points + spots)
    ensures var s := Schedule(dirs, points, spots, p);
      var r := DrawAll(dv0 + DirViews(dirs, ids, Cascades(p)),
                       pv0 + FaceViews(points, ids, |dirs| * Cascades(p)) + FaceViews(spots, ids, |dirs| * Cascades(p) + 6 * |points|),
                       dirs, points + spots, p, tv0 + ViewMap(ids, s), Starts(s, camera), true);
      r.Ok? && |r.value| == |s| &&
      forall v :: 0 <= v < |s| ==> r.value[v] == Pass(LayerView(s[v].shadowMap, s[v].layer), Starts(s, camera)[v])
  {
    var s := Schedule(dirs, points, spots, p);
    DrawPreparedViews(dirs, points, spots, p, ids, s, Starts(s, camera), tv0, dv0, pv0);
    ExpectedLayers(ids, s, Starts(s, camera), tv0);
  }

  // ---------------------------------------------------------------------
  // The cascade cameras (`calculate_cascade_view`). The frustum corners of
  // a slice and the cascade view's action on a point are matrix numerics
  // and come in as parameters; what is kept is which point the cascade
  // looks from, the box it fits, and its two scalar fields.

  const F32_MAX: real := 340282346638528859811704183484516925440.0

  datatype Aabb = Aabb(min: Vec3, max: Vec3)

  function MinR(a: real, b: real): real { if a <= b then a else b }
  function MaxR(a: real, b: real): real { if a >= b then a else b }

  /** `Vec3::min` / `Vec3::max`, component by component. */
  function MinV(a: Vec3, b: Vec3): Vec3 { Vec3(MinR(a.x, b.x), MinR(a.y, b.y), MinR(a.z, b.z)) }
  function MaxV(a: Vec3, b: Vec3): Vec3 { Vec3(MaxR(a.x, b.x), MaxR(a.y, b.y), MaxR(a.z, b.z)) }

  /** The fold that bounds the corners, starting from `min: Vec3::MAX,
   *  max: Vec3::MIN`: every corner lies inside the box. */
  function Bounds(cs: seq<Vec3>): (b: Aabb)
    ensures forall i :: 0 <= i < |cs| ==>
      && b.min.x <= cs[i].x <= b.max.x && b.min.y <= cs[i].y <= b.max.y && b.min.z <= cs[i].z <= b.max.z
    ensures |cs| == 0 ==> b == Aabb(Vec3(F32_MAX, F32_MAX, F32_MAX), Vec3(-F32_MAX, -F32_MAX, -F32_MAX))
  {
    if |cs| == 0 then Aabb(Vec3(F32_MAX, F32_MAX, F32_MAX), Vec3(-F32_MAX, -F32_MAX, -F32_MAX))
    else
      var b := Bounds(cs[..|cs| - 1]);
      Aabb(MinV(b.min, cs[|cs| - 1]), MaxV(b.max, cs[|cs| - 1]))
  }

  /** The sum the `reduce` over the corners computes. */
  function SumV(cs: seq<Vec3>): Vec3 {
    if |cs| == 0 then ZERO3 else Add3(SumV(cs[..|cs| - 1]), cs[|cs| - 1])
  }

  /** Every corner moved into the cascade's view space. */
  function InView(toView: Vec3 -> Vec3, cs: seq<Vec3>): (r: seq<Vec3>)
    ensures |r| == |cs|
  {
    seq(|cs|, i requires 0 <= i < |cs| => toView(cs[i]))
  }

  /** The centre of the corners: their sum over their count. */
  function Centre(cs: seq<Vec3>): Vec3
    requires |cs| > 0
  {
    Scale3(SumV(cs), 1.0 / (|cs| as real))
  }

  /** `calculate_cascade_view` for one slice, given the slice's frustum
   *  corners in world space and the cascade view's action on a point. The
   *  cascade looks from the corners' centre along the reversed light
   *  direction; its projection is an orthographic box centred on the view
   *  axis, 1.2 times as large as the corners' bounds in view space, so it
   *  is never inside out; `position_ws` is the centre for a perspective
   *  slice and the light direction for an orthographic one; and `exposure`
   *  carries the slice's near plane. */
  function CascadeView(slice: H.CameraProjection, lightDir: Vec3, corners: seq<Vec3>, toView: Vec3 -> Vec3)
    : (c: H.GpuCamera)
    requires |corners| > 0
    ensures c.view == M.LookToRh(Centre(corners), Neg3(lightDir), CubeMap.Y)
    ensures c.exposure == FS.Near(slice)
    ensures c.positionWs == (if slice.Perspective? then Centre(corners) else lightDir)
    ensures c.proj.OrthographicRh?
    ensures c.proj.left == -c.proj.right && c.proj.bottom == -c.proj.top && c.proj.zNear == -c.proj.zFar
    ensures 0.0 <= c.proj.right && 0.0 <= c.proj.top && 0.0 <= c.proj.zFar
  {
    var centre := Centre(corners);
    var view := M.LookToRh(centre, Neg3(lightDir), CubeMap.Y);
    var b := Bounds(InView(toView, corners));
    var half := Scale3(Sub3(b.max, b.min), 0.6);
    var proj := M.OrthographicRh(-half.x, half.x, -half.y, half.y, -half.z, half.z);
    H.GpuCamera(view, proj,
                if slice.Perspective? then centre else lightDir,
                FS.Near(slice))
  }

  /** Over slices cut the way `frustum_slice` cuts them, the cascades'
   *  `exposure` fields are the split depths the shader selects a cascade
   *  by: the first is the camera's near plane and each later one is where
   *  the slice before it ends. */
  lemma CascadeExposuresAreSplits(proj: H.CameraProjection, slices: seq<H.CameraProjection>, lightDir: Vec3,
                                  cornersOf: H.CameraProjection -> seq<Vec3>, toView: Vec3 -> Vec3, i: nat)
    requires i < |slices| && |cornersOf(slices[i])| > 0
    requires FS.Near(slices[0]) == FS.Near(proj)
    requires forall k :: 0 <= k < |slices| - 1 ==> FS.Far(slices[k]) == FS.Near(slices[k + 1])
    ensures CascadeView(slices[i], lightDir, cornersOf(slices[i]), toView).exposure
         == if i == 0 then FS.Near(proj) else FS.Far(slices[i - 1])
  {
  }

  // ---------------------------------------------------------------------
  // The node and the assets it touches.

  /** A shadow-map texture: its square resolution and its array layers. */
  datatype MapTexture = MapTexture(resolution: nat, layers: nat)

  /** A buffer that is written while it never had a device buffer gets one
   *  exactly when it holds bytes; without one, binding it panics. */
  lemma FreshWriteBinds(raw: seq<byte>, usage: set<UsageFlag>)
    ensures DynamicWritten(BufferState(raw, None, true, usage)).gpu.Some? <==> |raw| > 0
  {
  }

  /** With cameras of at least one byte, a list of views has camera bytes
   *  exactly when it has a view. */
  lemma {:induction false} CameraRawNonEmpty(slots: seq<Slot>, camera: Slot -> seq<byte>)
    requires forall s :: |camera(s)| > 0
    ensures |CameraRaw(slots, camera)| > 0 <==> |slots| > 0
  {
    if slots != [] {
      var m := |slots| - 1;
      CameraRawNonEmpty(slots[..m], camera);
      assert slots[..m] + [slots[m]] == slots;
    }
  }

  /** One more planar sample, encoded. */
  lemma {:induction false} Disk2Snoc(t: seq<Vec2>, i: nat, enc: Vec4 -> seq<byte>)
    requires i < |t|
    ensures Encoded(Disk2(t[..i + 1]), enc)
         == Encoded(Disk2(t[..i]), enc) + enc(Vec4(Centered(t[i].x), Centered(t[i].y), 0.0, 0.0))
  {
    var v := Vec4(Centered(t[i].x), Centered(t[i].y), 0.0, 0.0);
    assert t[..i + 1][..i] == t[..i];
    assert Disk2(t[..i + 1]) == Disk2(t[..i]) + [v];
    assert (Disk2(t[..i]) + [v])[..i] == Disk2(t[..i]);
  }

  /** One more spherical sample, encoded. */
  lemma {:induction false} Disk3Snoc(t: seq<Vec3>, i: nat, enc: Vec4 -> seq<byte>)
    requires i < |t|
    ensures Encoded(Disk3(t[..i + 1]), enc)
         == Encoded(Disk3(t[..i]), enc) + enc(Vec4(Centered(t[i].x), Centered(t[i].y), Centered(t[i].z), 0.0))
  {
    var v := Vec4(Centered(t[i].x), Centered(t[i].y), Centered(t[i].z), 0.0);
    assert t[..i + 1][..i] == t[..i];
    assert Disk3(t[..i + 1]) == Disk3(t[..i]) + [v];
    assert (Disk3(t[..i]) + [v])[..i] == Disk3(t[..i]);
  }

  /** The planar samples' loop: each sample centred, extended to four
   *  components and its bytes appended. */
  method AppendPlanar(raw0: seq<byte>, t2: seq<Vec2>, enc: Vec4 -> seq<byte>) returns (raw: seq<byte>)
    ensures raw == raw0 + Encoded(Disk2(t2), enc)
  {
    raw := raw0;
    for i := 0 to |t2|
      invariant raw == raw0 + Encoded(Disk2(t2[..i]), enc)
    {
      var x := t2[i];
      var v := Vec4(Centered(x.x), Centered(x.y), 0.0, 0.0);
      Disk2Snoc(t2, i, enc);
      raw := raw + enc(v);
    }
    assert t2[..|t2|] == t2;
  }

  /** The spherical samples' loop, likewise. */
  method AppendSpherical(raw0: seq<byte>, t3: seq<Vec3>, enc: Vec4 -> seq<byte>) returns (raw: seq<byte>)
    ensures raw == raw0 + Encoded(Disk3(t3), enc)
  {
    raw := raw0;
    for i := 0 to |t3|
      invariant raw == raw0 + Encoded(Disk3(t3[..i]), enc)
    {
      var x := t3[i];
      var v := Vec4(Centered(x.x), Centered(x.y), Centered(x.z), 0.0);
      Disk3Snoc(t3, i, enc);
      raw := raw + enc(v);
    }
    assert t3[..|t3|] == t3;
  }

  /** The Poisson table of `build`: the 2-D points, then the 3-D points,
   *  at most `samples` of each, centred and encoded one after the other. */
  method PoissonTable(p2: seq<Vec2>, p3: seq<Vec3>, samples: nat, enc: Vec4 -> seq<byte>) returns (raw: seq<byte>)
    ensures raw == Encoded(PoissonDisk(p2, p3, samples), enc)
  {
    raw := AppendPlanar([], Take(p2, samples), enc);
    raw := AppendSpherical(raw, Take(p3, samples), enc);
    EncodedAppend(Disk2(Take(p2, samples)), Disk3(Take(p3, samples)), enc);
  }

  /** The part of the renderer's `GpuScene` assets this node reads and
   *  writes, each map keyed by resource id; a buffer is held by value. */
  class ShadowAssets {
    var textures: map<Uuid, MapTexture>
    var textureViews: map<Uuid, ShadowView>
    var samplers: set<Uuid>
    var layouts: set<Uuid>
    var extraBuffers: map<Uuid, BufferState>
    var bindGroups: set<Uuid>

    constructor ()
      ensures textures == map[] && textureViews == map[] && samplers == {} && layouts == {}
      ensures extraBuffers == map[] && bindGroups == {}
    {
      textures := map[];
      textureViews := map[];
      samplers := {};
      layouts := {};
      extraBuffers := map[];
      bindGroups := {};
    }

    /** The shadow maps `prepare` looks up first; a missing one panics. */
    predicate TexturesReady()
      reads this`textures
    {
      DIRECTIONAL_SHADOW_MAP in textures && POINT_SHADOW_MAP in textures
    }

    /** A buffer that is there and has a device buffer to bind. */
    predicate Bindable(id: Uuid)
      reads this`extraBuffers
    {
      id in extraBuffers && extraBuffers[id].gpu.Some?
    }

    /** Everything the light-view bind group takes: its layout, the
     *  light-view buffer and the config buffer. */
    predicate LightGroupReady()
      reads this`layouts, this`extraBuffers
    {
      LIGHT_VIEW_LAYOUT in layouts && Bindable(LIGHT_VIEWS) && Bindable(CONFIG_BUFFER)
    }

    /** Everything the shadow-maps bind group takes. */
    predicate MapsGroupReady()
      reads this`layouts, this`extraBuffers, this`samplers, this`textureViews
    {
      && SHADOW_MAPS_LAYOUT in layouts && Bindable(CASCADE_VIEWS) && Bindable(POINT_LIGHT_VIEWS)
      && SHADOW_MAP_SAMPLER in samplers && SHADOW_TEXTURE_SAMPLER in samplers
      && DIRECTIONAL_SHADOW_MAP_VIEW in textureViews && POINT_SHADOW_MAP_VIEW in textureViews
      && Bindable(POISSON_DISK) && Bindable(CONFIG_BUFFER)
    }
  }

  class ShadowMappingNode {
    /** Per light, the ids of its layer views, and the light-view offsets. */
    var directionalViews: map<Uuid, seq<Uuid>>
    var pointViews: map<Uuid, seq<Uuid>>
    var offsets: seq<nat>

    /** `Default`. */
    constructor ()
      ensures directionalViews == map[] && pointViews == map[] && offsets == []
    {
      directionalViews := map[];
      pointViews := map[];
      offsets := [];
    }

    /** `create_pipelines` registers the light-view layout; the pipelines
     *  are GPU objects. */
    method CreatePipelines(assets: ShadowAssets)
      modifies assets`layouts
      ensures assets.layouts == old(assets.layouts) + {LIGHT_VIEW_LAYOUT}
    {
      assets.layouts := assets.layouts + {LIGHT_VIEW_LAYOUT};
    }

    /** `build` for `nDirs` directional and `nPoints`/`nSpots` point and
     *  spot lights: both shadow maps with their layer counts, their array
     *  views, the samplers and layout, the Poisson table from the samplers'
     *  output `p2`/`p3`, and the config uniform. */
    method Build(nDirs: nat, nPoints: nat, nSpots: nat, p2: seq<Vec2>, p3: seq<Vec3>, enc: Vec4 -> seq<byte>,
                 configBytes: seq<byte>, assets: ShadowAssets)
      modifies assets`layouts, assets`samplers, assets`textures, assets`textureViews, assets`extraBuffers
      ensures assets.textures == old(assets.textures)
        [DIRECTIONAL_SHADOW_MAP := MapTexture(CONFIG.dirMapResolution, DirectionalLayers(nDirs, PARTITIONING))]
        [POINT_SHADOW_MAP := MapTexture(CONFIG.pointMapResolution, PointLayers(nPoints, nSpots))]
      ensures assets.textureViews == old(assets.textureViews)
        [DIRECTIONAL_SHADOW_MAP_VIEW := ArrayView(DirectionalMap)][POINT_SHADOW_MAP_VIEW := ArrayView(PointMap)]
      ensures assets.samplers == old(assets.samplers) + {SHADOW_MAP_SAMPLER, SHADOW_TEXTURE_SAMPLER}
      ensures assets.layouts == old(assets.layouts) + {SHADOW_MAPS_LAYOUT}
      ensures assets.extraBuffers == old(assets.extraBuffers)
        [POISSON_DISK := DynamicWritten(BufferState(Encoded(PoissonDisk(p2, p3, CONFIG.samples), enc), None, true, {STORAGE}))]
        [CONFIG_BUFFER := DynamicWritten(BufferState(configBytes, None, true, {UNIFORM}))]
      ensures assets.TexturesReady()
    {
      assets.layouts := assets.layouts + {SHADOW_MAPS_LAYOUT};
      assets.samplers := assets.samplers + {SHADOW_MAP_SAMPLER, SHADOW_TEXTURE_SAMPLER};
      assets.textures := assets.textures
        [DIRECTIONAL_SHADOW_MAP := MapTexture(CONFIG.dirMapResolution, DirectionalLayers(nDirs, PARTITIONING))];
      assets.textureViews := assets.textureViews[DIRECTIONAL_SHADOW_MAP_VIEW := ArrayView(DirectionalMap)];
      assets.textures := assets.textures[POINT_SHADOW_MAP := MapTexture(CONFIG.pointMapResolution, PointLayers(nPoints, nSpots))];
      assets.textureViews := assets.textureViews[POINT_SHADOW_MAP_VIEW := ArrayView(PointMap)];

      var raw := PoissonTable(p2, p3, CONFIG.samples, enc);
      UploadTables(raw, configBytes, assets);
    }

    /** The end of `build`: the Poisson table set into a fresh storage
     *  buffer and the shadow config pushed into a fresh uniform buffer,
     *  both written and kept among the extra buffers. */
    method UploadTables(raw: seq<byte>, configBytes: seq<byte>, assets: ShadowAssets)
      modifies assets`extraBuffers
      ensures assets.extraBuffers == old(assets.extraBuffers)
        [POISSON_DISK := DynamicWritten(BufferState(raw, None, true, {STORAGE}))]
        [CONFIG_BUFFER := DynamicWritten(BufferState(configBytes, None, true, {UNIFORM}))]
    {
      var poisson := new DynamicGpuBuffer({STORAGE});
      poisson.Set(raw);
      assert poisson.State() == BufferState(raw, None, true, {STORAGE});
      poisson.Write();
      assets.extraBuffers := assets.extraBuffers[POISSON_DISK := poisson.State()];

      var config := new DynamicGpuBuffer({UNIFORM});
      var _ := config.Push(configBytes);
      assert [] + configBytes == configBytes;
      assert config.State() == BufferState(configBytes, None, true, {UNIFORM});
      config.Write();
      assets.extraBuffers := assets.extraBuffers[CONFIG_BUFFER := config.State()];
    }

    /** The views `done` have been emitted since `prepare` began, from
     *  texture views `tv0` and offsets `offsets0`: one texture view each,
     *  their cameras pushed to `light`, the offsets of those pushes kept. */
    ghost predicate Emitted(assets: ShadowAssets, light: DynamicGpuBuffer, tv0: map<Uuid, ShadowView>, offsets0: seq<nat>,
                            ids: seq<Uuid>, done: seq<Slot>, camera: Slot -> seq<byte>)
      reads this`offsets, assets`textureViews, light
    {
      && |done| <= |ids|
      && assets.textureViews == tv0 + ViewMap(ids, done)
      && offsets == offsets0 + Starts(done, camera)
      && light.State() == BufferState(CameraRaw(done, camera), None, true, {UNIFORM})
    }

    /** The body shared by every view of `prepare`: a texture view on the
     *  view's layer under the next id, its camera pushed to the light-view
     *  buffer and the offset of that push kept. */
    method EmitView(s: Slot, v: nat, ids: seq<Uuid>, camera: Slot -> seq<byte>, assets: ShadowAssets, light: DynamicGpuBuffer,
                    ghost tv0: map<Uuid, ShadowView>, ghost offsets0: seq<nat>, ghost done: seq<Slot>)
      requires v == |done| < |ids| && Emitted(assets, light, tv0, offsets0, ids, done, camera)
      modifies this`offsets, assets`textureViews, light
      ensures Emitted(assets, light, tv0, offsets0, ids, done + [s], camera)
    {
      EmitStep(ids, done, s, camera);
      assets.textureViews := assets.textureViews[ids[v] := LayerView(s.shadowMap, s.layer)];
      var offset := light.Push(camera(s));
      offsets := offsets + [offset];
    }

    /** One directional light of `prepare`: a view per cascade on layer
     *  `directional_index`, which counts views; each camera is also
     *  appended to the raw cascade bytes. */
    method EmitCascade(id: Uuid, j: nat, directionalIndex: nat, ids: seq<Uuid>, camera: Slot -> seq<byte>, assets: ShadowAssets,
                       light: DynamicGpuBuffer, cascadeRaw0: seq<byte>, ghost tv0: map<Uuid, ShadowView>,
                       ghost offsets0: seq<nat>, ghost done0: seq<Slot>) returns (maps: seq<Uuid>, cascadeRaw: seq<byte>)
      requires directionalIndex == |done0| == j * Cascades(PARTITIONING)
      requires |done0| + Cascades(PARTITIONING) <= |ids|
      requires Emitted(assets, light, tv0, offsets0, ids, done0, camera)
      modifies this`offsets, assets`textureViews, light
      ensures Emitted(assets, light, tv0, offsets0, ids, done0 + CascadeSlots(id, j, Cascades(PARTITIONING)), camera)
      ensures maps == ids[j * Cascades(PARTITIONING)..j * Cascades(PARTITIONING) + Cascades(PARTITIONING)]
      ensures cascadeRaw == cascadeRaw0 + CameraRaw(CascadeSlots(id, j, Cascades(PARTITIONING)), camera)
    {
      var n := Cascades(PARTITIONING);
      maps := seq(n, _ => 0);
      cascadeRaw := cascadeRaw0;
      ghost var done := done0;
      var index := directionalIndex;
      for k := 0 to n
        invariant done == done0 + CascadeSlots(id, j, n)[..k] && index == |done| == directionalIndex + k
        invariant |maps| == n && forall i {:trigger maps[i]} :: 0 <= i < k ==> maps[i] == ids[directionalIndex + i]
        invariant Emitted(assets, light, tv0, offsets0, ids, done, camera)
        invariant cascadeRaw == cascadeRaw0 + CameraRaw(CascadeSlots(id, j, n)[..k], camera)
      {
        var s := Slot(id, DirectionalMap, k, index);
        assert s == CascadeSlots(id, j, n)[k];
        maps := maps[k := ids[index]];
        EmitView(s, index, ids, camera, assets, light, tv0, offsets0, done);
        assert CascadeSlots(id, j, n)[..k + 1] == CascadeSlots(id, j, n)[..k] + [s];
        CameraRawSnoc(CascadeSlots(id, j, n)[..k], s, camera);
        cascadeRaw := cascadeRaw + camera(s);
        done := done + [s];
        index := index + 1;
      }
      assert CascadeSlots(id, j, n)[..n] == CascadeSlots(id, j, n);
    }

    /** The directional loop of `prepare`. */
    method EmitCascades(dirs: seq<Uuid>, ids: seq<Uuid>, camera: Slot -> seq<byte>, assets: ShadowAssets,
                        light: DynamicGpuBuffer) returns (cascadeRaw: seq<byte>)
      requires |dirs| * Cascades(PARTITIONING) <= |ids|
      requires light.State() == BufferState([], None, true, {UNIFORM})
      modifies this`offsets, this`directionalViews, assets`textureViews, light
      ensures Emitted(assets, light, old(assets.textureViews), old(offsets), ids, DirSlots(dirs, Cascades(PARTITIONING)), camera)
      ensures cascadeRaw == CameraRaw(DirSlots(dirs, Cascades(PARTITIONING)), camera)
      ensures directionalViews == old(directionalViews) + DirViews(dirs, ids, Cascades(PARTITIONING))
    {
      cascadeRaw := [];
      ghost var done: seq<Slot> := [];
      var directionalIndex := 0;
      for j := 0 to |dirs|
        invariant done == DirSlots(dirs[..j], Cascades(PARTITIONING)) && directionalIndex == |done| == j * Cascades(PARTITIONING)
        invariant j * Cascades(PARTITIONING) <= |ids|
        invariant Emitted(assets, light, old(assets.textureViews), old(offsets), ids, done, camera)
        invariant cascadeRaw == CameraRaw(done, camera)
        invariant directionalViews == old(directionalViews) + DirViews(dirs[..j], ids, Cascades(PARTITIONING))
      {
        DirViewsSnoc(dirs, ids, Cascades(PARTITIONING), j, old(directionalViews));
        var maps;
        ghost var before := done;
        maps, cascadeRaw := EmitCascade(dirs[j], j, directionalIndex, ids, camera, assets, light, cascadeRaw,
                                        old(assets.textureViews), old(offsets), done);
        CameraRawAppend(before, CascadeSlots(dirs[j], j, Cascades(PARTITIONING)), camera);
        DirSlotsSnoc(dirs, Cascades(PARTITIONING), j);
        done := done + CascadeSlots(dirs[j], j, Cascades(PARTITIONING));
        directionalIndex := directionalIndex + Cascades(PARTITIONING);
        directionalViews := directionalViews[dirs[j] := maps];
      }
      assert dirs[..|dirs|] == dirs;
    }

    /** The body of a cube face: a view, and its camera also pushed to the
     *  point-light-view buffer. */
    method EmitFace(s: Slot, v: nat, ids: seq<Uuid>, camera: Slot -> seq<byte>, assets: ShadowAssets, light: DynamicGpuBuffer,
                    pointBuf: DynamicGpuBuffer, ghost tv0: map<Uuid, ShadowView>, ghost offsets0: seq<nat>, ghost done: seq<Slot>)
      requires v == |done| < |ids| && light != pointBuf && Emitted(assets, light, tv0, offsets0, ids, done, camera)
      modifies this`offsets, assets`textureViews, light, pointBuf
      ensures Emitted(assets, light, tv0, offsets0, ids, done + [s], camera)
      ensures pointBuf.raw == old(pointBuf.raw) + camera(s) && pointBuf.changed
      ensures pointBuf.buffer == old(pointBuf.buffer) && pointBuf.usage == old(pointBuf.usage)
    {
      EmitView(s, v, ids, camera, assets, light, tv0, offsets0, done);
      var _ := pointBuf.Push(camera(s));
    }

    /** Face `f` of a point or spot light: the face on layer
     *  `6 * point_index + f` under the next id, pushed to the
     *  point-light-view buffer too. */
    method EmitFaceAt(id: Uuid, pointIndex: nat, f: nat, next: nat, ids: seq<Uuid>, camera: Slot -> seq<byte>,
                      assets: ShadowAssets, light: DynamicGpuBuffer, pointBuf: DynamicGpuBuffer,
                      ghost tv0: map<Uuid, ShadowView>, ghost offsets0: seq<nat>, ghost done0: seq<Slot>, ghost raw0: seq<byte>,
                      faces: seq<Uuid>, ghost done: seq<Slot>) returns (faces': seq<Uuid>, ghost done': seq<Slot>)
      requires f < 6 && light != pointBuf && next == |done0| && next + 6 <= |ids|
      requires done == done0 + FaceSlots(id, pointIndex)[..f]
      requires |faces| == 6 && forall g {:trigger faces[g]} :: 0 <= g < f ==> faces[g] == ids[next + g]
      requires Emitted(assets, light, tv0, offsets0, ids, done, camera)
      requires pointBuf.raw == raw0 + CameraRaw(FaceSlots(id, pointIndex)[..f], camera)
      modifies this`offsets, assets`textureViews, light, pointBuf
      ensures done' == done0 + FaceSlots(id, pointIndex)[..f + 1]
      ensures |faces'| == 6 && forall g {:trigger faces'[g]} :: 0 <= g < f + 1 ==> faces'[g] == ids[next + g]
      ensures Emitted(assets, light, tv0, offsets0, ids, done', camera)
      ensures pointBuf.raw == raw0 + CameraRaw(FaceSlots(id, pointIndex)[..f + 1], camera) && pointBuf.changed
      ensures pointBuf.buffer == old(pointBuf.buffer) && pointBuf.usage == old(pointBuf.usage)
    {
      var v := next + f;
      var s := Slot(id, PointMap, f, pointIndex * 6 + f);
      FaceStep(id, pointIndex, f, camera, done0, raw0);
      faces' := faces[f := ids[v]];
      EmitFace(s, v, ids, camera, assets, light, pointBuf, tv0, offsets0, done);
      done' := done + [s];
    }

    /** One point or spot light of `prepare`: six faces, face `f` on layer
     *  `6 * point_index + f`, each face's camera also pushed to the
     *  point-light-view buffer. */
    method EmitFaces(id: Uuid, pointIndex: nat, next: nat, ids: seq<Uuid>, camera: Slot -> seq<byte>, assets: ShadowAssets,
                     light: DynamicGpuBuffer, pointBuf: DynamicGpuBuffer, ghost tv0: map<Uuid, ShadowView>,
                     ghost offsets0: seq<nat>, ghost done0: seq<Slot>) returns (faces: seq<Uuid>)
      requires light != pointBuf && next == |done0| && next + 6 <= |ids|
      requires Emitted(assets, light, tv0, offsets0, ids, done0, camera)
      modifies this`offsets, assets`textureViews, light, pointBuf
      ensures Emitted(assets, light, tv0, offsets0, ids, done0 + FaceSlots(id, pointIndex), camera)
      ensures faces == ids[next..next + 6]
      ensures pointBuf.raw == old(pointBuf.raw) + CameraRaw(FaceSlots(id, pointIndex), camera) && pointBuf.changed
      ensures pointBuf.buffer == old(pointBuf.buffer) && pointBuf.usage == old(pointBuf.usage)
    {
      faces := seq(6, _ => 0);
      ghost var done := done0;
      ghost var raw0 := pointBuf.raw;
      assert FaceSlots(id, pointIndex)[..0] == [];
      assert done0 + [] == done0 && raw0 + [] == raw0;
      for f := 0 to 6
        invariant done == done0 + FaceSlots(id, pointIndex)[..f]
        invariant |faces| == 6 && forall g {:trigger faces[g]} :: 0 <= g < f ==> faces[g] == ids[next + g]
        invariant Emitted(assets, light, tv0, offsets0, ids, done, camera)
        invariant pointBuf.raw == raw0 + CameraRaw(FaceSlots(id, pointIndex)[..f], camera) && (f > 0 ==> pointBuf.changed)
        invariant pointBuf.buffer == old(pointBuf.buffer) && pointBuf.usage == old(pointBuf.usage)
      {
        faces, done := EmitFaceAt(id, pointIndex, f, next, ids, camera, assets, light, pointBuf, tv0, offsets0, done0, raw0,
                                  faces, done);
      }
      assert FaceSlots(id, pointIndex)[..6] == FaceSlots(id, pointIndex);
    }

    /** One light of the point-light (or spot-light) loop: its six faces
     *  emitted and pushed, then its face ids recorded under its id. */
    method EmitCube(id: Uuid, pointIndex: nat, next: nat, ids: seq<Uuid>, camera: Slot -> seq<byte>,
                    assets: ShadowAssets, light: DynamicGpuBuffer, pointBuf: DynamicGpuBuffer, ghost tv0: map<Uuid, ShadowView>,
                    ghost offsets0: seq<nat>, ghost done: seq<Slot>)
      requires light != pointBuf && next == |done| && next + 6 <= |ids|
      requires Emitted(assets, light, tv0, offsets0, ids, done, camera)
      modifies this`offsets, this`pointViews, assets`textureViews, light, pointBuf
      ensures Emitted(assets, light, tv0, offsets0, ids, done + FaceSlots(id, pointIndex), camera)
      ensures pointBuf.raw == old(pointBuf.raw) + CameraRaw(FaceSlots(id, pointIndex), camera) && pointBuf.changed
      ensures pointBuf.buffer == old(pointBuf.buffer) && pointBuf.usage == old(pointBuf.usage)
      ensures pointViews == old(pointViews)[id := ids[next..next + 6]]
    {
      var faces := EmitFaces(id, pointIndex, next, ids, camera, assets, light, pointBuf, tv0, offsets0, done);
      pointViews := pointViews[id := faces];
    }

    /** The body of the point-light loop for its `i`-th light, with the
     *  views done, the bytes pushed and the face ids recorded so far. */
    method EmitCubeAt(lights: seq<Uuid>, i: nat, base: nat, pointIndex: nat, next: nat, ids: seq<Uuid>,
                      camera: Slot -> seq<byte>, assets: ShadowAssets, light: DynamicGpuBuffer, pointBuf: DynamicGpuBuffer,
                      ghost tv0: map<Uuid, ShadowView>, ghost offsets0: seq<nat>, ghost done0: seq<Slot>, ghost raw0: seq<byte>,
                      ghost pv0: map<Uuid, seq<Uuid>>, ghost done: seq<Slot>)
      returns (ghost done': seq<Slot>)
      requires light != pointBuf && i < |lights| && pointIndex == base + i && next + 6 * |lights| <= |ids|
      requires done == done0 + CubeSlots(lights[..i], base) && |done| == next + 6 * i
      requires Emitted(assets, light, tv0, offsets0, ids, done, camera)
      requires pointBuf.raw == raw0 + CameraRaw(CubeSlots(lights[..i], base), camera)
      requires pointViews == pv0 + FaceViews(lights[..i], ids, next)
      modifies this`offsets, this`pointViews, assets`textureViews, light, pointBuf
      ensures done' == done0 + CubeSlots(lights[..i + 1], base) && |done'| == next + 6 * (i + 1)
      ensures Emitted(assets, light, tv0, offsets0, ids, done', camera)
      ensures pointBuf.raw == raw0 + CameraRaw(CubeSlots(lights[..i + 1], base), camera)
      ensures pointViews == pv0 + FaceViews(lights[..i + 1], ids, next)
      ensures pointBuf.buffer == old(pointBuf.buffer) && pointBuf.changed && pointBuf.usage == old(pointBuf.usage)
    {
      var at := next + 6 * i;
      CubeStep(lights, i, base, pointIndex, next, at, ids, camera, done0, raw0, pv0);
      EmitCube(lights[i], pointIndex, at, ids, camera, assets, light, pointBuf, tv0, offsets0, done);
      done' := done + FaceSlots(lights[i], pointIndex);
    }

    /** The point-light loop of `prepare`, and (called again) the spot-light
     *  loop: `point_index` starts at `base`, and ids are drawn from
     *  `ids[next..]`. */
    method EmitCubes(lights: seq<Uuid>, base: nat, next: nat, ids: seq<Uuid>, camera: Slot -> seq<byte>, assets: ShadowAssets,
                     light: DynamicGpuBuffer, pointBuf: DynamicGpuBuffer, ghost tv0: map<Uuid, ShadowView>,
                     ghost offsets0: seq<nat>, ghost done0: seq<Slot>) returns (ghost done: seq<Slot>)
      requires light != pointBuf && next == |done0| && next + 6 * |lights| <= |ids|
      requires Emitted(assets, light, tv0, offsets0, ids, done0, camera)
      requires pointBuf.buffer.None? && pointBuf.changed && pointBuf.usage == {STORAGE}
      modifies this`offsets, this`pointViews, assets`textureViews, light, pointBuf
      ensures done == done0 + CubeSlots(lights, base)
      ensures Emitted(assets, light, tv0, offsets0, ids, done, camera)
      ensures pointBuf.State() == BufferState(old(pointBuf.raw) + CameraRaw(CubeSlots(lights, base), camera), None, true, {STORAGE})
      ensures pointViews == old(pointViews) + FaceViews(lights, ids, next)
    {
      ghost var raw0 := pointBuf.raw;
      ghost var pv0 := pointViews;
      done := done0;
      assert lights[..0] == [];
      assert done0 + [] == done0 && raw0 + [] == raw0 && pv0 + map[] == pv0;
      var pointIndex := base;
      for i := 0 to |lights|
        invariant pointIndex == base + i
        invariant done == done0 + CubeSlots(lights[..i], base) && |done| == next + 6 * i
        invariant Emitted(assets, light, tv0, offsets0, ids, done, camera)
        invariant pointBuf.raw == raw0 + CameraRaw(CubeSlots(lights[..i], base), camera)
        invariant pointViews == pv0 + FaceViews(lights[..i], ids, next)
        invariant pointBuf.buffer.None? && pointBuf.changed && pointBuf.usage == {STORAGE}
      {
        done := EmitCubeAt(lights, i, base, pointIndex, next, ids, camera, assets, light, pointBuf, tv0, offsets0,
                           done0, raw0, pv0, done);
        pointIndex := pointIndex + 1;
      }
      assert lights[..|lights|] == lights;
    }

    /** The point-light loop then the spot-light loop of `prepare`, over a
     *  fresh point-light-view buffer; `point_index` runs on from the point
     *  lights into the spot lights. */
    method EmitPointLights(points: seq<Uuid>, spots: seq<Uuid>, next: nat, ids: seq<Uuid>, camera: Slot -> seq<byte>,
                           assets: ShadowAssets, light: DynamicGpuBuffer, ghost tv0: map<Uuid, ShadowView>,
                           ghost offsets0: seq<nat>, ghost done0: seq<Slot>) returns (pointBuf: DynamicGpuBuffer)
      requires next == |done0| && next + 6 * (|points| + |spots|) <= |ids|
      requires Emitted(assets, light, tv0, offsets0, ids, done0, camera)
      modifies this`offsets, this`pointViews, assets`textureViews, light
      ensures fresh(pointBuf)
      ensures Emitted(assets, light, tv0, offsets0, ids, done0 + CubeSlots(points, 0) + CubeSlots(spots, |points|), camera)
      ensures pointBuf.State() == BufferState(
        CameraRaw(CubeSlots(points, 0), camera) + CameraRaw(CubeSlots(spots, |points|), camera), None, true, {STORAGE})
      ensures pointViews == old(pointViews) + FaceViews(points, ids, next) + FaceViews(spots, ids, next + 6 * |points|)
    {
      pointBuf := new DynamicGpuBuffer({STORAGE});
      ghost var done := EmitCubes(points, 0, next, ids, camera, assets, light, pointBuf, tv0, offsets0, done0);
      done := EmitCubes(spots, |points|, next + 6 * |points|, ids, camera, assets, light, pointBuf, tv0, offsets0, done);
      assert [] + CameraRaw(CubeSlots(points, 0), camera) == CameraRaw(CubeSlots(points, 0), camera);
    }

    /** The three loops of `prepare` over a fresh light-view buffer and a
     *  fresh point-light-view buffer: every view of the schedule emitted,
     *  and the raw cascade bytes returned. */
    method EmitViews(dirs: seq<Uuid>, points: seq<Uuid>, spots: seq<Uuid>, ids: seq<Uuid>, camera: Slot -> seq<byte>,
                     assets: ShadowAssets) returns (cascadeRaw: seq<byte>, pointBuf: DynamicGpuBuffer, light: DynamicGpuBuffer)
      requires |ids| == |Schedule(dirs, points, spots, PARTITIONING)|
      modifies this`offsets, this`directionalViews, this`pointViews, assets`textureViews
      ensures fresh(pointBuf) && fresh(light) && pointBuf != light
      ensures Emitted(assets, light, old(assets.textureViews), old(offsets), ids, Schedule(dirs, points, spots, PARTITIONING), camera)
      ensures cascadeRaw == CameraRaw(DirSlots(dirs, Cascades(PARTITIONING)), camera)
      ensures pointBuf.State() == BufferState(
        CameraRaw(CubeSlots(points, 0), camera) + CameraRaw(CubeSlots(spots, |points|), camera), None, true, {STORAGE})
      ensures directionalViews == old(directionalViews) + DirViews(dirs, ids, Cascades(PARTITIONING))
      ensures pointViews == old(pointViews) + FaceViews(points, ids, |dirs| * Cascades(PARTITIONING))
                            + FaceViews(spots, ids, |dirs| * Cascades(PARTITIONING) + 6 * |points|)
    {
      light := new DynamicGpuBuffer({UNIFORM});
      cascadeRaw := EmitCascades(dirs, ids, camera, assets, light);
      pointBuf := EmitPointLights(points, spots, |dirs| * Cascades(PARTITIONING), ids, camera, assets, light,
                                  old(assets.textureViews), old(offsets), DirSlots(dirs, Cascades(PARTITIONING)));
    }

    /** The end of `prepare`'s uploads: the cascade bytes set into a fresh
     *  storage buffer, the three camera buffers written, and each kept
     *  among the extra buffers under its id. */
    method UploadViews(cascadeRaw: seq<byte>, pointBuf: DynamicGpuBuffer, light: DynamicGpuBuffer, assets: ShadowAssets)
      requires pointBuf != light
      modifies pointBuf, light, assets`extraBuffers
      ensures assets.extraBuffers == old(assets.extraBuffers)
        [CASCADE_VIEWS := DynamicWritten(BufferState(cascadeRaw, None, true, {STORAGE}))]
        [POINT_LIGHT_VIEWS := DynamicWritten(old(pointBuf.State()))]
        [LIGHT_VIEWS := DynamicWritten(old(light.State()))]
    {
      var cascadeBuf := new DynamicGpuBuffer({STORAGE});
      cascadeBuf.Set(cascadeRaw);
      assert cascadeBuf.State() == BufferState(cascadeRaw, None, true, {STORAGE});
      cascadeBuf.Write();
      pointBuf.Write();
      light.Write();
      assets.extraBuffers := assets.extraBuffers[CASCADE_VIEWS := cascadeBuf.State()];
      assets.extraBuffers := assets.extraBuffers[POINT_LIGHT_VIEWS := pointBuf.State()];
      assets.extraBuffers := assets.extraBuffers[LIGHT_VIEWS := light.State()];
    }

    /** The bind groups of `prepare`: the light-views group when all it
     *  binds is there, then the shadow-maps group likewise; the first that
     *  cannot be made panics (`ok` is false). */
    method MakeBindGroups(assets: ShadowAssets) returns (ok: bool)
      modifies assets`bindGroups
      ensures ok == (assets.LightGroupReady() && assets.MapsGroupReady())
      ensures assets.bindGroups == old(assets.bindGroups)
             + (if assets.LightGroupReady() then {LIGHT_VIEWS_BIND_GROUP} else {})
             + (if assets.LightGroupReady() && assets.MapsGroupReady() then {SHADOW_MAPS_BIND_GROUP} else {})
    {
      if !assets.LightGroupReady() {
        return false;
      }
      assets.bindGroups := assets.bindGroups + {LIGHT_VIEWS_BIND_GROUP};
      if !assets.MapsGroupReady() {
        return false;
      }
      assets.bindGroups := assets.bindGroups + {SHADOW_MAPS_BIND_GROUP};
      ok := true;
    }

    /** `prepare`, as written. Missing shadow maps panic before anything
     *  changes. Otherwise it renders the schedule: each view's texture view
     *  on its layer, the per-light view ids, the three camera buffers
     *  (cascades, cube faces, all views); then each bind group is made when
     *  all it binds is there, and the first that is not panics (`ok` is
     *  false). Its offsets are APPENDED to those of earlier frames:
     *  `offsets` is never emptied. Textures, samplers and layouts are not
     *  touched. */
    method Prepare(dirs: seq<Uuid>, points: seq<Uuid>, spots: seq<Uuid>, ids: seq<Uuid>, camera: Slot -> seq<byte>,
                   assets: ShadowAssets) returns (ok: bool)
      requires |ids| == |Schedule(dirs, points, spots, PARTITIONING)|
      modifies this`offsets, this`directionalViews, this`pointViews
      modifies assets`textureViews, assets`extraBuffers, assets`bindGroups
      ensures ok == (old(assets.TexturesReady()) && assets.LightGroupReady() && assets.MapsGroupReady())
      ensures !old(assets.TexturesReady()) ==> unchanged(this) && unchanged(assets)
      ensures old(assets.TexturesReady()) ==>
        && assets.textureViews == old(assets.textureViews) + ViewMap(ids, Schedule(dirs, points, spots, PARTITIONING))
        && offsets == old(offsets) + Starts(Schedule(dirs, points, spots, PARTITIONING), camera)
        && directionalViews == old(directionalViews) + DirViews(dirs, ids, Cascades(PARTITIONING))
        && pointViews == old(pointViews) + FaceViews(points, ids, |dirs| * Cascades(PARTITIONING))
                         + FaceViews(spots, ids, |dirs| * Cascades(PARTITIONING) + 6 * |points|)
        && assets.extraBuffers == old(assets.extraBuffers)
             [CASCADE_VIEWS := DynamicWritten(BufferState(CameraRaw(DirSlots(dirs, Cascades(PARTITIONING)), camera), None, true, {STORAGE}))]
             [POINT_LIGHT_VIEWS := DynamicWritten(BufferState(
                CameraRaw(CubeSlots(points, 0), camera) + CameraRaw(CubeSlots(spots, |points|), camera), None, true, {STORAGE}))]
             [LIGHT_VIEWS := DynamicWritten(BufferState(CameraRaw(Schedule(dirs, points, spots, PARTITIONING), camera), None, true, {UNIFORM}))]
        && assets.bindGroups == old(assets.bindGroups)
             + (if assets.LightGroupReady() then {LIGHT_VIEWS_BIND_GROUP} else {})
             + (if assets.LightGroupReady() && assets.MapsGroupReady() then {SHADOW_MAPS_BIND_GROUP} else {})
    {
      if !assets.TexturesReady() {
        return false;
      }
      var cascadeRaw, pointBuf, light := EmitViews(dirs, points, spots, ids, camera, assets);
      UploadViews(cascadeRaw, pointBuf, light, assets);
      ok := MakeBindGroups(assets);
    }

    /** `prepare` as evidently intended: `offsets` emptied first, as the
     *  older node empties its view list, so that it holds this frame's
     *  offsets only (see `PrepareThenDraw`). */
    method PrepareFresh(dirs: seq<Uuid>, points: seq<Uuid>, spots: seq<Uuid>, ids: seq<Uuid>, camera: Slot -> seq<byte>,
                        assets: ShadowAssets) returns (ok: bool)
      requires |ids| == |Schedule(dirs, points, spots, PARTITIONING)|
      modifies this`offsets, this`directionalViews, this`pointViews
      modifies assets`textureViews, assets`extraBuffers, assets`bindGroups
      ensures ok == (old(assets.TexturesReady()) && assets.LightGroupReady() && assets.MapsGroupReady())
      ensures ok ==> var s := Schedule(dirs, points, spots, PARTITIONING); var n := Cascades(PARTITIONING); var d := |dirs| * n;
        && assets.textureViews == old(assets.textureViews) + ViewMap(ids, s)
        && offsets == Starts(s, camera)
        && directionalViews == old(directionalViews) + DirViews(dirs, ids, n)
        && pointViews == old(pointViews) + FaceViews(points, ids, d) + FaceViews(spots, ids, d + 6 * |points|)
        && LIGHT_VIEWS_BIND_GROUP in assets.bindGroups
    {
      offsets := [];
      ok := Prepare(dirs, points, spots, ids, camera, assets);
    }

    /** `draw` (partitioning is PSSM, so every cascade view of a directional
     *  light is drawn): returns the passes it records, or the panic of a
     *  missing view or offset. */
    method Draw(dirs: seq<Uuid>, points: seq<Uuid>, spots: seq<Uuid>, assets: ShadowAssets) returns (r: Result<seq<Pass>, Panic>)
      ensures r == DrawAll(directionalViews, pointViews, dirs, points + spots, PARTITIONING, assets.textureViews, offsets,
                           LIGHT_VIEWS_BIND_GROUP in assets.bindGroups)
    {
      if LIGHT_VIEWS_BIND_GROUP !in assets.bindGroups {
        return Ok([]);
      }
      r := DrawEach([], directionalViews, dirs, assets.textureViews);
      if r.Err? {
        DrawLightsFromErr(r.error, pointViews, points + spots, false, assets.textureViews, offsets);
        return;
      }
      r := DrawEach(r.value, pointViews, points + spots, assets.textureViews);
    }

    /** One light loop of `draw`: every view of every light, in order. */
    method DrawEach(start: seq<Pass>, lightViews: map<Uuid, seq<Uuid>>, lights: seq<Uuid>, tv: map<Uuid, ShadowView>)
      returns (r: Result<seq<Pass>, Panic>)
      ensures r == DrawLights(Ok(start), lightViews, lights, false, tv, offsets)
    {
      var passes := start;
      for j := 0 to |lights|
        invariant DrawLights(Ok(start), lightViews, lights[..j], false, tv, offsets) == Ok(passes)
      {
        var id := lights[j];
        assert lights[..j + 1][..j] == lights[..j];
        if id !in lightViews {
          DrawLightsSticky(Ok(start), lightViews, lights, false, tv, offsets, j + 1);
          return Err(MissingKey);
        }
        var views := lightViews[id];
        ghost var before := passes;
        for k := 0 to |views|
          invariant DrawViews(Ok(before), tv, offsets, views[..k]) == Ok(passes)
        {
          assert views[..k + 1][..k] == views[..k];
          if views[k] !in tv || |passes| >= |offsets| {
            r := if views[k] !in tv then Err(MissingKey) else Err(IndexOutOfBounds);
            DrawViewsSticky(Ok(before), tv, offsets, views, k + 1);
            DrawLightsSticky(Ok(start), lightViews, lights, false, tv, offsets, j + 1);
            return;
          }
          passes := passes + [Pass(tv[views[k]], offsets[|passes|])];
        }
        assert views[..|views|] == views;
      }
      assert lights[..|lights|] == lights;
      r := Ok(passes);
    }
  }

  // ---------------------------------------------------------------------
  // The offsets are never emptied.

  function UnitCamera(s: Slot): seq<byte> {
    [0]
  }

  lemma {:induction false} UnitCameraRaw(slots: seq<Slot>)
    ensures |CameraRaw(slots, UnitCamera)| == |slots|
  {
    if slots != [] {
      UnitCameraRaw(slots[..|slots| - 1]);
    }
  }

  /** Frame 1 has one point light, frame 2 adds a directional light. After
   *  two `prepare`s as written, `offsets` holds frame 1's six offsets and
   *  then frame 2's seven, and `draw` in frame 2 binds `offsets[6]` for its
   *  pass 6 (the last face of the point light): that is 0, frame 2's first
   *  offset, while that face's camera starts at byte 6 (one-byte cameras). */
  lemma StaleOffsetAfterLightChange()
    ensures var s1 := Schedule([], [1], [], PARTITIONING); var s2 := Schedule([2], [1], [], PARTITIONING);
      var asWritten := Starts(s1, UnitCamera) + Starts(s2, UnitCamera);
      && |s2| == 7 && s2[6] == Slot(1, PointMap, 5, 5)
      && asWritten[6] == 0 && Starts(s2, UnitCamera)[6] == 6
  {
    var s1 := Schedule([], [1], [], PARTITIONING);
    var s2 := Schedule([2], [1], [], PARTITIONING);
    ScheduleFaceAt([2], [1], [], PARTITIONING, 0, 5);
    assert Starts(s1, UnitCamera)[0] == 0 by {
      assert Starts(s1[..1], UnitCamera) == [0];
      StartsPrefix(s1, 1);
    }
    assert Starts(s2, UnitCamera)[0] == 0 by {
      assert Starts(s2[..1], UnitCamera) == [0];
      StartsPrefix(s2, 1);
    }
    UnitCameraRaw(s2[..6]);
    assert s2[..7][..6] == s2[..6];
    assert s2[..7] == s2;
  }

  /** Offsets of a prefix are a prefix of the offsets. */
  lemma {:induction false} StartsPrefix(slots: seq<Slot>, k: nat)
    requires 0 < k <= |slots|
    ensures Starts(slots, UnitCamera)[..k] == Starts(slots[..k], UnitCamera)
    decreases |slots|
  {
    if k < |slots| {
      var m := |slots| - 1;
      assert slots[..m][..k] == slots[..k];
      StartsPrefix(slots[..m], k);
    } else {
      assert slots[..k] == slots;
    }
  }
}
