/** `GpuScene::sync` of the `core` crate: every frame the camera and the
 *  lights are re-uploaded into fresh buffers, one per light kind, and the
 *  scene's pending asset events are applied, in order, to the maps of GPU
 *  resources.
 *
 *  Byte encodings of the GPU records (`as_bytes`) are parameters, and so is
 *  `safe_write`, whose body is not part of this model; a `Vec3` always
 *  encodes to twelve bytes. */
module RenderScene {
  import opened Common
  import opened Buffers
  import Helper
  import SR = SceneResource
  import Color
  import TextureUtil

  type Uuid = nat

  const CAMERA_UUID: Uuid := 4514851245144087048541368740532463840
  const DIR_LIGHT_UUID: Uuid := 50864540865401960354989784651053240851

  /** Buffer keys whose constant values are not part of this model. */
  datatype LightKeys = LightKeys(point: Uuid, spot: Uuid, area: Uuid, areaVertices: Uuid)

  const VEC3_SIZE: nat := 12

  type Vec3Bytes = s: seq<byte> | |s| == VEC3_SIZE witness [0, 0, 0, 0, 0, 0, 0, 0, 0, 0, 0, 0]

  /** An area light as its transfer hands it over: the GPU record, whose
   *  two vertex indices count from the light's own first vertex, and the
   *  light's vertices. */
  datatype GpuAreaLight = GpuAreaLight(vertex0: nat, vertex1: nat, attributes: seq<real>)
  datatype AreaLight = AreaLight(gpu: GpuAreaLight, vertices: seq<Vec3>)

  datatype Light =
    | Directional(d: SR.DirectionalLight)
    | Point(p: SR.PointLight)
    | Spot(s: SR.SpotLight)
    | Area(a: AreaLight)

  /** The byte encodings of the records, with the rotation and the power
   *  function the light transfers need. */
  datatype Conversions = Conversions(
    camera: Helper.GpuCamera -> seq<byte>,
    directional: Helper.GpuDirectionalLight -> seq<byte>,
    point: Helper.GpuPointLight -> seq<byte>,
    spot: Helper.GpuSpotLight -> seq<byte>,
    area: GpuAreaLight -> seq<byte>,
    vec3: Vec3 -> Vec3Bytes,
    vertex: SR.Vertex -> seq<byte>,
    mul: Helper.RotateVec,
    pow: Color.Pow,
    safeWrite: BufferState -> BufferState)

  // ---------------------------------------------------------------------
  // Light buffers

  /** The host bytes of the five light buffers. */
  datatype LightBytes = LightBytes(dir: seq<byte>, point: seq<byte>, spot: seq<byte>, area: seq<byte>, vertices: seq<byte>)

  const NO_LIGHT_BYTES: LightBytes := LightBytes([], [], [], [], [])

  function VerticesBytes(vs: seq<Vec3>, cv: Conversions): (r: seq<byte>)
    ensures |r| == VEC3_SIZE * |vs|
  {
    if vs == [] then [] else VerticesBytes(vs[..|vs| - 1], cv) + cv.vec3(vs[|vs| - 1])
  }

  /** The area light with both vertex indices moved past `t` earlier
   *  vertices. */
  function Rebased(l: GpuAreaLight, t: nat): (r: GpuAreaLight)
    ensures r.vertex0 - l.vertex0 == t && r.vertex1 - l.vertex1 == t && r.attributes == l.attributes
  {
    l.(vertex0 := l.vertex0 + t, vertex1 := l.vertex1 + t)
  }

  /** One iteration of the light loop: the light's record goes at the end
   *  of its own kind's buffer (an area light's vertices at the end of the
   *  vertex buffer); the other buffers stay as they are. */
  function LightStep(b: LightBytes, l: Light, cv: Conversions): (r: LightBytes)
    ensures b.dir <= r.dir && b.point <= r.point && b.spot <= r.spot && b.area <= r.area && b.vertices <= r.vertices
    ensures !l.Directional? ==> r.dir == b.dir
    ensures !l.Point? ==> r.point == b.point
    ensures !l.Spot? ==> r.spot == b.spot
    ensures !l.Area? ==> r.area == b.area && r.vertices == b.vertices
  {
    match l
    case Directional(d) => b.(dir := b.dir + cv.directional(SR.TransferDirectional(d, cv.mul, cv.pow)))
    case Point(p) => b.(point := b.point + cv.point(SR.TransferPoint(p, cv.pow)))
    case Spot(s) => b.(spot := b.spot + cv.spot(SR.TransferSpot(s, cv.mul, cv.pow)))
    case Area(a) =>
      var t := AsU32(|b.vertices| / VEC3_SIZE);
      b.(area := b.area + cv.area(Rebased(a.gpu, t)), vertices := b.vertices + VerticesBytes(a.vertices, cv))
  }

  /** The light buffers after the loop has run over `lights`. */
  function Partitioned(lights: seq<Light>, cv: Conversions): (b: LightBytes)
    ensures |b.vertices| == VEC3_SIZE * AreaVertexCount(lights)
  {
    if lights == [] then NO_LIGHT_BYTES
    else LightStep(Partitioned(lights[..|lights| - 1], cv), lights[|lights| - 1], cv)
  }

  /** How many area-light vertices `lights` holds. */
  function AreaVertexCount(lights: seq<Light>): nat {
    if lights == [] then 0
    else AreaVertexCount(lights[..|lights| - 1])
         + (if lights[|lights| - 1].Area? then |lights[|lights| - 1].a.vertices| else 0)
  }

  // The lights of each kind, in scene order.

  function Directionals(lights: seq<Light>): seq<SR.DirectionalLight> {
    if lights == [] then []
    else Directionals(lights[..|lights| - 1]) + (if lights[|lights| - 1].Directional? then [lights[|lights| - 1].d] else [])
  }

  function Points(lights: seq<Light>): seq<SR.PointLight> {
    if lights == [] then []
    else Points(lights[..|lights| - 1]) + (if lights[|lights| - 1].Point? then [lights[|lights| - 1].p] else [])
  }

  function Spots(lights: seq<Light>): seq<SR.SpotLight> {
    if lights == [] then []
    else Spots(lights[..|lights| - 1]) + (if lights[|lights| - 1].Spot? then [lights[|lights| - 1].s] else [])
  }

  function Areas(lights: seq<Light>): seq<AreaLight> {
    if lights == [] then []
    else Areas(lights[..|lights| - 1]) + (if lights[|lights| - 1].Area? then [lights[|lights| - 1].a] else [])
  }

  /** The number of vertices of the first `k` area lights. */
  function VerticesBefore(areas: seq<AreaLight>, k: nat): nat
    requires k <= |areas|
  {
    if k == 0 then 0 else VerticesBefore(areas, k - 1) + |areas[k - 1].vertices|
  }

  /** The expected contents of each buffer, built from each kind's lights
   *  alone. */
  function DirBytes(ds: seq<SR.DirectionalLight>, cv: Conversions): seq<byte> {
    if ds == [] then [] else DirBytes(ds[..|ds| - 1], cv) + cv.directional(SR.TransferDirectional(ds[|ds| - 1], cv.mul, cv.pow))
  }

  function PointBytes(ps: seq<SR.PointLight>, cv: Conversions): seq<byte> {
    if ps == [] then [] else PointBytes(ps[..|ps| - 1], cv) + cv.point(SR.TransferPoint(ps[|ps| - 1], cv.pow))
  }

  function SpotBytes(ss: seq<SR.SpotLight>, cv: Conversions): seq<byte> {
    if ss == [] then [] else SpotBytes(ss[..|ss| - 1], cv) + cv.spot(SR.TransferSpot(ss[|ss| - 1], cv.mul, cv.pow))
  }

  /** Area light k, its indices moved past the vertices of area lights
   *  0 .. k-1 (the count cast to `u32`). */
  function AreaBytes(areas: seq<AreaLight>, k: nat, cv: Conversions): seq<byte>
    requires k <= |areas|
  {
    if k == 0 then []
    else AreaBytes(areas, k - 1, cv) + cv.area(Rebased(areas[k - 1].gpu, AsU32(VerticesBefore(areas, k - 1))))
  }

  function AreaVerticesBytes(areas: seq<AreaLight>, k: nat, cv: Conversions): seq<byte>
    requires k <= |areas|
  {
    if k == 0 then [] else AreaVerticesBytes(areas, k - 1, cv) + VerticesBytes(areas[k - 1].vertices, cv)
  }

  lemma {:induction false} VerticesBeforePrefix(areas: seq<AreaLight>, a: AreaLight, k: nat)
    requires k <= |areas|
    ensures VerticesBefore(areas + [a], k) == VerticesBefore(areas, k)
  {
    if k > 0 {
      VerticesBeforePrefix(areas, a, k - 1);
    }
  }

  lemma {:induction false} AreaPrefix(areas: seq<AreaLight>, a: AreaLight, k: nat, cv: Conversions)
    requires k <= |areas|
    ensures AreaBytes(areas + [a], k, cv) == AreaBytes(areas, k, cv)
    ensures AreaVerticesBytes(areas + [a], k, cv) == AreaVerticesBytes(areas, k, cv)
  {
    if k > 0 {
      AreaPrefix(areas, a, k - 1, cv);
      VerticesBeforePrefix(areas, a, k - 1);
    }
  }

  /** The area vertices of `lights` are those of its area lights. */
  lemma {:induction false} AreaVertexCountIsBefore(lights: seq<Light>)
    ensures AreaVertexCount(lights) == VerticesBefore(Areas(lights), |Areas(lights)|)
  {
    if lights != [] {
      var init, l := lights[..|lights| - 1], lights[|lights| - 1];
      AreaVertexCountIsBefore(init);
      var areas := Areas(init);
      if !l.Area? {
        assert Areas(lights) == areas;
      } else {
        assert Areas(lights) == areas + [l.a];
        VerticesBeforePrefix(areas, l.a, |areas|);
        assert (areas + [l.a])[|areas|] == l.a;
      }
    }
  }

  lemma {:induction false} DirectionalsPartitioned(lights: seq<Light>, cv: Conversions)
    ensures Partitioned(lights, cv).dir == DirBytes(Directionals(lights), cv)
  {
    if lights != [] {
      var init, l := lights[..|lights| - 1], lights[|lights| - 1];
      DirectionalsPartitioned(init, cv);
      assert Partitioned(lights, cv) == LightStep(Partitioned(init, cv), l, cv);
      if !l.Directional? {
        assert Directionals(lights) == Directionals(init);
      } else {
        var ds := Directionals(lights);
        assert ds == Directionals(init) + [l.d];
        assert ds[..|ds| - 1] == Directionals(init);
      }
    }
  }

  lemma {:induction false} PointsPartitioned(lights: seq<Light>, cv: Conversions)
    ensures Partitioned(lights, cv).point == PointBytes(Points(lights), cv)
  {
    if lights != [] {
      var init, l := lights[..|lights| - 1], lights[|lights| - 1];
      PointsPartitioned(init, cv);
      assert Partitioned(lights, cv) == LightStep(Partitioned(init, cv), l, cv);
      if !l.Point? {
        assert Points(lights) == Points(init);
      } else {
        var ps := Points(lights);
        assert ps == Points(init) + [l.p];
        assert ps[..|ps| - 1] == Points(init);
      }
    }
  }

  lemma {:induction false} SpotsPartitioned(lights: seq<Light>, cv: Conversions)
    ensures Partitioned(lights, cv).spot == SpotBytes(Spots(lights), cv)
  {
    if lights != [] {
      var init, l := lights[..|lights| - 1], lights[|lights| - 1];
      SpotsPartitioned(init, cv);
      assert Partitioned(lights, cv) == LightStep(Partitioned(init, cv), l, cv);
      if !l.Spot? {
        assert Spots(lights) == Spots(init);
      } else {
        var ss := Spots(lights);
        assert ss == Spots(init) + [l.s];
        assert ss[..|ss| - 1] == Spots(init);
      }
    }
  }

  /** Appending an area light appends its record, rebased past every
   *  earlier area vertex, and its vertices. */
  lemma AreaSnoc(areas: seq<AreaLight>, a: AreaLight, cv: Conversions)
    ensures AreaBytes(areas + [a], |areas| + 1, cv)
         == AreaBytes(areas, |areas|, cv) + cv.area(Rebased(a.gpu, AsU32(VerticesBefore(areas, |areas|))))
    ensures AreaVerticesBytes(areas + [a], |areas| + 1, cv)
         == AreaVerticesBytes(areas, |areas|, cv) + VerticesBytes(a.vertices, cv)
  {
    AreaPrefix(areas, a, |areas|, cv);
    VerticesBeforePrefix(areas, a, |areas|);
    assert (areas + [a])[|areas|] == a;
  }

  lemma VertexIndex(n: nat)
    ensures (VEC3_SIZE * n) / VEC3_SIZE == n
  {
  }

  lemma {:induction false} AreasPartitioned(lights: seq<Light>, cv: Conversions)
    ensures Partitioned(lights, cv).area == AreaBytes(Areas(lights), |Areas(lights)|, cv)
    ensures Partitioned(lights, cv).vertices == AreaVerticesBytes(Areas(lights), |Areas(lights)|, cv)
  {
    if lights != [] {
      var init, l := lights[..|lights| - 1], lights[|lights| - 1];
      AreasPartitioned(init, cv);
      var b := Partitioned(init, cv);
      assert Partitioned(lights, cv) == LightStep(b, l, cv);
      var areas := Areas(init);
      if !l.Area? {
        assert Areas(lights) == areas;
      } else {
        assert Areas(lights) == areas + [l.a];
        AreaSnoc(areas, l.a, cv);
        AreaVertexCountIsBefore(init);
        VertexIndex(AreaVertexCount(init));
        assert |b.vertices| / VEC3_SIZE == VerticesBefore(areas, |areas|);
      }
    }
  }

  /** Each light lands in the buffer of its own kind, the lights of one kind
   *  in scene order; every area light's indices are shifted by the number
   *  of area vertices already in the shared vertex buffer, and its vertices
   *  follow those. */
  lemma PartitionedByKind(lights: seq<Light>, cv: Conversions)
    ensures Partitioned(lights, cv).dir == DirBytes(Directionals(lights), cv)
    ensures Partitioned(lights, cv).point == PointBytes(Points(lights), cv)
    ensures Partitioned(lights, cv).spot == SpotBytes(Spots(lights), cv)
    ensures Partitioned(lights, cv).area == AreaBytes(Areas(lights), |Areas(lights)|, cv)
    ensures Partitioned(lights, cv).vertices == AreaVerticesBytes(Areas(lights), |Areas(lights)|, cv)
  {
    DirectionalsPartitioned(lights, cv);
    PointsPartitioned(lights, cv);
    SpotsPartitioned(lights, cv);
    AreasPartitioned(lights, cv);
  }

  /** The bytes of a fresh storage buffer, pushed to but never written. */
  function Unwritten(raw: seq<byte>): BufferState {
    BufferState(raw, None, true, {STORAGE})
  }

  lemma VertexBytesAligned(n: nat)
    ensures (VEC3_SIZE * n) % VEC3_SIZE == 0
  {
  }

  /** One light pushed into the buffer of its kind. An area light's vertex
   *  indices are first moved past the vertices already in the shared vertex
   *  buffer; then its vertices and its record are pushed. */
  method PushLight(l: Light, dir: DynamicGpuBuffer, point: DynamicGpuBuffer, spot: DynamicGpuBuffer,
                   area: DynamicGpuBuffer, verts: DynamicGpuBuffer, cv: Conversions, ghost b: LightBytes)
    requires dir != point && dir != spot && dir != area && dir != verts
    requires point != spot && point != area && point != verts
    requires spot != area && spot != verts && area != verts
    requires |b.vertices| % VEC3_SIZE == 0
    requires dir.State() == Unwritten(b.dir) && point.State() == Unwritten(b.point) && spot.State() == Unwritten(b.spot)
    requires area.State() == Unwritten(b.area) && verts.State() == Unwritten(b.vertices)
    modifies dir, point, spot, area, verts
    ensures var n := LightStep(b, l, cv);
      dir.State() == Unwritten(n.dir) && point.State() == Unwritten(n.point) && spot.State() == Unwritten(n.spot)
      && area.State() == Unwritten(n.area) && verts.State() == Unwritten(n.vertices)
  {
    match l
    case Directional(d) =>
      var _ := dir.Push(cv.directional(SR.TransferDirectional(d, cv.mul, cv.pow)));
    case Point(p) =>
      var _ := point.Push(cv.point(SR.TransferPoint(p, cv.pow)));
    case Spot(sp) =>
      var _ := spot.Push(cv.spot(SR.TransferSpot(sp, cv.mul, cv.pow)));
    case Area(a) =>
      var count := verts.Len(VEC3_SIZE);
      var t := AsU32(count.value);
      assert count.value == |b.vertices| / VEC3_SIZE;
      for j := 0 to |a.vertices|
        invariant verts.State() == Unwritten(b.vertices + VerticesBytes(a.vertices[..j], cv))
        invariant dir.State() == Unwritten(b.dir) && point.State() == Unwritten(b.point)
        invariant spot.State() == Unwritten(b.spot) && area.State() == Unwritten(b.area)
      {
        var _ := verts.Push(cv.vec3(a.vertices[j]));
        assert a.vertices[..j + 1][..j] == a.vertices[..j];
      }
      assert a.vertices[..|a.vertices|] == a.vertices;
      var _ := area.Push(cv.area(Rebased(a.gpu, t)));
  }

  /** The light loop of `sync`: five fresh storage buffers holding, after
   *  the loop, the bytes `Partitioned` describes. */
  method FillLights(lights: seq<Light>, cv: Conversions)
      returns (dir: DynamicGpuBuffer, point: DynamicGpuBuffer, spot: DynamicGpuBuffer, area: DynamicGpuBuffer, verts: DynamicGpuBuffer)
    ensures fresh(dir) && fresh(point) && fresh(spot) && fresh(area) && fresh(verts)
    ensures var b := Partitioned(lights, cv);
      dir.State() == Unwritten(b.dir) && point.State() == Unwritten(b.point) && spot.State() == Unwritten(b.spot)
      && area.State() == Unwritten(b.area) && verts.State() == Unwritten(b.vertices)
  {
    dir := new DynamicGpuBuffer({STORAGE});
    point := new DynamicGpuBuffer({STORAGE});
    spot := new DynamicGpuBuffer({STORAGE});
    area := new DynamicGpuBuffer({STORAGE});
    verts := new DynamicGpuBuffer({STORAGE});
    for i := 0 to |lights|
      invariant fresh(dir) && fresh(point) && fresh(spot) && fresh(area) && fresh(verts)
      invariant var b := Partitioned(lights[..i], cv);
        dir.State() == Unwritten(b.dir) && point.State() == Unwritten(b.point) && spot.State() == Unwritten(b.spot)
        && area.State() == Unwritten(b.area) && verts.State() == Unwritten(b.vertices)
    {
      ghost var b := Partitioned(lights[..i], cv);
      VertexBytesAligned(AreaVertexCount(lights[..i]));
      PushLight(lights[i], dir, point, spot, area, verts, cv, b);
      assert lights[..i + 1][..i] == lights[..i];
    }
    assert lights[..|lights|] == lights;
  }

  /** The camera buffer `sync` makes: one camera pushed into a fresh
   *  uniform buffer, then written. */
  function CameraBuffer(c: SR.Camera, cv: Conversions): BufferState {
    DynamicWritten(Pushed(BufferState([], None, true, {UNIFORM}), cv.camera(SR.TransferCamera(c))))
  }

  /** The buffer map once `sync` has inserted the camera and the five light
   *  buffers, each light buffer passed through `safe_write`. */
  function LightsInserted(m: map<Uuid, BufferState>, c: SR.Camera, lights: seq<Light>, keys: LightKeys, cv: Conversions): map<Uuid, BufferState> {
    var b := Partitioned(lights, cv);
    m[CAMERA_UUID := CameraBuffer(c, cv)]
     [DIR_LIGHT_UUID := cv.safeWrite(Unwritten(b.dir))]
     [keys.point := cv.safeWrite(Unwritten(b.point))]
     [keys.spot := cv.safeWrite(Unwritten(b.spot))]
     [keys.area := cv.safeWrite(Unwritten(b.area))]
     [keys.areaVertices := cv.safeWrite(Unwritten(b.vertices))]
  }

  /** The six keys are different constants. */
  predicate KeysDistinct(keys: LightKeys) {
    && keys.point !in {CAMERA_UUID, DIR_LIGHT_UUID}
    && keys.spot !in {CAMERA_UUID, DIR_LIGHT_UUID, keys.point}
    && keys.area !in {CAMERA_UUID, DIR_LIGHT_UUID, keys.point, keys.spot}
    && keys.areaVertices !in {CAMERA_UUID, DIR_LIGHT_UUID, keys.point, keys.spot, keys.area}
  }

  /** After `sync` the camera buffer holds exactly one camera's bytes, on
   *  the device as well. */
  lemma SyncedCamera(m: map<Uuid, BufferState>, c: SR.Camera, lights: seq<Light>, keys: LightKeys, cv: Conversions)
    requires KeysDistinct(keys)
    ensures var r := LightsInserted(m, c, lights, keys, cv);
      && r[CAMERA_UUID].raw == cv.camera(SR.TransferCamera(c))
      && (r[CAMERA_UUID].raw != [] ==> Uploaded(r[CAMERA_UUID]))
  {
    var s := Pushed(BufferState([], None, true, {UNIFORM}), cv.camera(SR.TransferCamera(c)));
    assert s.raw == cv.camera(SR.TransferCamera(c));
    WriteUploads(s);
    assert LightsInserted(m, c, lights, keys, cv)[CAMERA_UUID] == CameraBuffer(c, cv);
  }

  /** After `sync` each light buffer holds the lights of its kind, in scene
   *  order, area lights rebased. */
  lemma SyncedLights(m: map<Uuid, BufferState>, c: SR.Camera, lights: seq<Light>, keys: LightKeys, cv: Conversions)
    requires KeysDistinct(keys)
    ensures var r := LightsInserted(m, c, lights, keys, cv);
      && r[DIR_LIGHT_UUID] == cv.safeWrite(Unwritten(DirBytes(Directionals(lights), cv)))
      && r[keys.point] == cv.safeWrite(Unwritten(PointBytes(Points(lights), cv)))
      && r[keys.spot] == cv.safeWrite(Unwritten(SpotBytes(Spots(lights), cv)))
      && r[keys.area] == cv.safeWrite(Unwritten(AreaBytes(Areas(lights), |Areas(lights)|, cv)))
      && r[keys.areaVertices] == cv.safeWrite(Unwritten(AreaVerticesBytes(Areas(lights), |Areas(lights)|, cv)))
  {
    PartitionedByKind(lights, cv);
    var b := Partitioned(lights, cv);
    var r := LightsInserted(m, c, lights, keys, cv);
    assert r[DIR_LIGHT_UUID] == cv.safeWrite(Unwritten(b.dir));
    assert r[keys.point] == cv.safeWrite(Unwritten(b.point));
    assert r[keys.spot] == cv.safeWrite(Unwritten(b.spot));
    assert r[keys.area] == cv.safeWrite(Unwritten(b.area));
  }

  /** `sync` inserts six keys and leaves every other buffer alone. */
  lemma SyncedOthers(m: map<Uuid, BufferState>, c: SR.Camera, lights: seq<Light>, keys: LightKeys, cv: Conversions, k: Uuid)
    requires k !in {CAMERA_UUID, DIR_LIGHT_UUID, keys.point, keys.spot, keys.area, keys.areaVertices}
    ensures var r := LightsInserted(m, c, lights, keys, cv);
      && r.Keys == m.Keys + {CAMERA_UUID, DIR_LIGHT_UUID, keys.point, keys.spot, keys.area, keys.areaVertices}
      && (k in r <==> k in m)
      && (k in m ==> r[k] == m[k])
  {
  }

  // ---------------------------------------------------------------------
  // Asset events

  datatype AssetType = Mesh | Material | Image | StaticMesh

  datatype AssetEvent = Added(uuid: Uuid, ty: AssetType) | Removed(uuid: Uuid, ty: AssetType)

  /** Bind-group layouts and bind groups, as far as the host builds them. */
  datatype ViewDimension = ViewD2 | ViewD3
  datatype BindingType =
    | UniformBinding(dynamicOffset: bool)
    | TextureBinding(sampleType: TextureUtil.TextureSampleType, dimension: ViewDimension)
    | FilteringSampler
  datatype LayoutEntry = LayoutEntry(binding: nat, ty: BindingType)
  datatype Layout = Layout(entries: seq<LayoutEntry>)
  datatype BindingResource = BufferResource(buffer: DeviceBuffer) | TextureViewResource(texture: SR.Texture) | LinearSampler
  datatype BindGroup = BindGroup(layout: Layout, entries: seq<BindingResource>)

  /** The maps of `GpuAssets` and the material map of `GpuScene`, as one
   *  value. */
  datatype Assets<M> = Assets(
    buffers: map<Uuid, BufferState>,
    textures: map<Uuid, SR.Texture>,
    bindGroups: map<Uuid, BindGroup>,
    layouts: map<Uuid, Layout>,
    materials: map<Uuid, M>)

  /** What the events read from the scene: mesh vertices, images, and each
   *  material with its type key. */
  datatype SceneData<M> = SceneData(
    meshes: map<Uuid, seq<SR.Vertex>>,
    images: map<Uuid, SR.Image>,
    materials: map<Uuid, (M, Uuid)>)

  /** The vertex buffer `Mesh::transfer` makes. */
  function MeshBuffer(vs: seq<SR.Vertex>, cv: Conversions): BufferState {
    DynamicWritten(BufferState(SR.VertexBytes(vs, cv.vertex), None, true, {VERTEX}))
  }

  /** Every map agrees with `a` away from key `u`; layouts are only added. */
  ghost predicate AgreeAway<M>(a: Assets<M>, b: Assets<M>, u: Uuid) {
    && (forall k :: k != u ==> (k in a.buffers <==> k in b.buffers) && (k in a.buffers ==> b.buffers[k] == a.buffers[k]))
    && (forall k :: k != u ==> (k in a.textures <==> k in b.textures) && (k in a.textures ==> b.textures[k] == a.textures[k]))
    && (forall k :: k != u ==> (k in a.bindGroups <==> k in b.bindGroups) && (k in a.bindGroups ==> b.bindGroups[k] == a.bindGroups[k]))
    && (forall k :: k != u ==> (k in a.materials <==> k in b.materials) && (k in a.materials ==> b.materials[k] == a.materials[k]))
    && a.layouts.Keys <= b.layouts.Keys
  }

  /** The asset a `Removed` event names is gone. */
  ghost predicate Absent<M>(a: Assets<M>, u: Uuid, ty: AssetType) {
    match ty
    case Mesh => u !in a.buffers
    case Material => u !in a.bindGroups && u !in a.materials
    case Image => u !in a.textures
    case StaticMesh => true
  }

  /** The asset an `Added` event names is there, made from the scene's. */
  ghost predicate Present<M>(a: Assets<M>, u: Uuid, ty: AssetType, s: SceneData<M>, cv: Conversions) {
    match ty
    case Mesh => u in s.meshes && u in a.buffers && a.buffers[u] == MeshBuffer(s.meshes[u], cv)
    case Material => u in s.materials && u in a.materials && a.materials[u] == s.materials[u].0
    case Image => u in s.images && u in a.textures && a.textures[u] == SR.ImageTexture(s.images[u])
    case StaticMesh => true
  }

  /** One asset event. Indexing a scene map with an id it lacks panics;
   *  `create_layout` of the material (its type key and layout) is a
   *  parameter, called only when the type has no layout yet. */
  function ApplyEvent<M>(a: Assets<M>, e: AssetEvent, s: SceneData<M>, cv: Conversions, createLayout: M -> (Uuid, Layout)): (r: Result<Assets<M>, Panic>)
    ensures r.Err? <==> e.Added? && ((e.ty == Mesh && e.uuid !in s.meshes) || (e.ty == Material && e.uuid !in s.materials) || (e.ty == Image && e.uuid !in s.images))
    ensures r.Err? ==> r.error == MissingKey
    ensures r.Ok? ==> AgreeAway(a, r.value, e.uuid)
    ensures e.ty == StaticMesh ==> r == Ok(a)
    ensures e.Removed? ==> r.Ok? && Absent(r.value, e.uuid, e.ty)
    ensures e.Added? && r.Ok? ==> Present(r.value, e.uuid, e.ty, s, cv)
    ensures e.Added? && e.ty == Material && r.Ok? && s.materials[e.uuid].1 in a.layouts ==> r.value.layouts == a.layouts
    ensures e.Added? && e.ty == Material && r.Ok? && s.materials[e.uuid].1 !in a.layouts ==>
              var (key, layout) := createLayout(s.materials[e.uuid].0); r.value.layouts == a.layouts[key := layout]
    ensures !(e.Added? && e.ty == Material) && r.Ok? ==> r.value.layouts == a.layouts
  {
    var u := e.uuid;
    match e
    case Added(_, Mesh) =>
      if u !in s.meshes then Err(MissingKey) else Ok(a.(buffers := a.buffers[u := MeshBuffer(s.meshes[u], cv)]))
    case Added(_, Material) =>
      if u !in s.materials then Err(MissingKey)
      else
        var (m, ty) := s.materials[u];
        var layouts := if ty in a.layouts then a.layouts else a.layouts[createLayout(m).0 := createLayout(m).1];
        Ok(a.(layouts := layouts, materials := a.materials[u := m]))
    case Added(_, Image) =>
      if u !in s.images then Err(MissingKey) else Ok(a.(textures := a.textures[u := SR.ImageTexture(s.images[u])]))
    case Added(_, StaticMesh) => Ok(a)
    case Removed(_, Mesh) => Ok(a.(buffers := a.buffers - {u}))
    case Removed(_, Material) => Ok(a.(bindGroups := a.bindGroups - {u}, materials := a.materials - {u}))
    case Removed(_, Image) => Ok(a.(textures := a.textures - {u}))
    case Removed(_, StaticMesh) => Ok(a)
  }

  /** The events applied in order; the first panic stops the rest. The
   *  only panic is a missing scene entry, and layouts are only added. */
  function ApplyEvents<M>(a: Assets<M>, es: seq<AssetEvent>, s: SceneData<M>, cv: Conversions, createLayout: M -> (Uuid, Layout))
    : (r: Result<Assets<M>, Panic>)
    ensures r.Err? ==> r.error == MissingKey
    ensures r.Ok? ==> a.layouts.Keys <= r.value.layouts.Keys
  {
    if es == [] then Ok(a)
    else
      var r := ApplyEvents(a, es[..|es| - 1], s, cv, createLayout);
      if r.Err? then r else ApplyEvent(r.value, es[|es| - 1], s, cv, createLayout)
  }

  function EventIds(es: seq<AssetEvent>): set<Uuid> {
    set i | 0 <= i < |es| :: es[i].uuid
  }

  /** Keys no event names keep their entries; layouts are only added. */
  lemma {:induction false} UnnamedKeysUnchanged<M>(a: Assets<M>, es: seq<AssetEvent>, s: SceneData<M>, cv: Conversions, createLayout: M -> (Uuid, Layout), k: Uuid)
    requires ApplyEvents(a, es, s, cv, createLayout).Ok?
    requires k !in EventIds(es)
    ensures var b := ApplyEvents(a, es, s, cv, createLayout).value;
      && (k in b.buffers <==> k in a.buffers) && (k in a.buffers ==> b.buffers[k] == a.buffers[k])
      && (k in b.textures <==> k in a.textures) && (k in a.textures ==> b.textures[k] == a.textures[k])
      && (k in b.bindGroups <==> k in a.bindGroups) && (k in a.bindGroups ==> b.bindGroups[k] == a.bindGroups[k])
      && (k in b.materials <==> k in a.materials) && (k in a.materials ==> b.materials[k] == a.materials[k])
      && a.layouts.Keys <= b.layouts.Keys
  {
    if es != [] {
      var init := es[..|es| - 1];
      assert EventIds(init) <= EventIds(es) by {
        forall u | u in EventIds(init) ensures u in EventIds(es) {
          var i :| 0 <= i < |init| && init[i].uuid == u;
          assert es[i].uuid == u;
        }
      }
      assert es[|es| - 1].uuid in EventIds(es);
      UnnamedKeysUnchanged(a, init, s, cv, createLayout, k);
    }
  }

  /** Removal events never panic, whatever they name. */
  lemma {:induction false} RemovalsNeverPanic<M>(a: Assets<M>, es: seq<AssetEvent>, s: SceneData<M>, cv: Conversions, createLayout: M -> (Uuid, Layout))
    requires forall i :: 0 <= i < |es| ==> es[i].Removed?
    ensures ApplyEvents(a, es, s, cv, createLayout).Ok?
  {
    if es != [] {
      RemovalsNeverPanic(a, es[..|es| - 1], s, cv, createLayout);
    }
  }

  /** Events are applied in order: adding then removing an asset leaves it
   *  absent, removing then adding leaves it present. */
  lemma EventOrderMatters<M>(a: Assets<M>, u: Uuid, ty: AssetType, s: SceneData<M>, cv: Conversions, createLayout: M -> (Uuid, Layout))
    requires ty != StaticMesh
    ensures var r := ApplyEvents(a, [Added(u, ty), Removed(u, ty)], s, cv, createLayout);
      r.Ok? ==> Absent(r.value, u, ty)
    ensures var r := ApplyEvents(a, [Removed(u, ty), Added(u, ty)], s, cv, createLayout);
      r.Ok? ==> Present(r.value, u, ty, s, cv)
  {
    assert [Added(u, ty), Removed(u, ty)][..1] == [Added(u, ty)];
    assert [Removed(u, ty), Added(u, ty)][..1] == [Removed(u, ty)];
  }

  // ---------------------------------------------------------------------
  // The scene and its GPU side

  /** `GpuAssets`. */
  class GpuAssets {
    var buffers: map<Uuid, BufferState>
    var textures: map<Uuid, SR.Texture>
    var bindGroups: map<Uuid, BindGroup>
    var layouts: map<Uuid, Layout>

    constructor ()
      ensures buffers == map[] && textures == map[] && bindGroups == map[] && layouts == map[]
    {
      buffers := map[];
      textures := map[];
      bindGroups := map[];
      layouts := map[];
    }
  }

  /** The scene as `sync` reads it; materials are values of type `M`, each
   *  with its type key. */
  class Scene<M> {
    var camera: SR.Camera
    var lights: seq<Light>
    var meshes: map<Uuid, SR.Mesh>
    var images: map<Uuid, SR.Image>
    var materials: map<Uuid, (M, Uuid)>
    var assetEvents: seq<AssetEvent>

    constructor (camera: SR.Camera, lights: seq<Light>, meshes: map<Uuid, SR.Mesh>, images: map<Uuid, SR.Image>,
                 materials: map<Uuid, (M, Uuid)>, assetEvents: seq<AssetEvent>)
      ensures this.camera == camera && this.lights == lights && this.meshes == meshes
      ensures this.images == images && this.materials == materials && this.assetEvents == assetEvents
    {
      this.camera := camera;
      this.lights := lights;
      this.meshes := meshes;
      this.images := images;
      this.materials := materials;
      this.assetEvents := assetEvents;
    }

    function MeshObjects(): set<SR.Mesh> reads this {
      set u | u in meshes :: meshes[u]
    }

    function Data(): SceneData<M> reads this, MeshObjects() {
      SceneData(map u | u in meshes :: meshes[u].raw, images, materials)
    }
  }

  /** `GpuScene`: the assets and the materials copied from the scene. */
  class GpuScene<M> {
    const assets: GpuAssets
    var materials: map<Uuid, M>

    constructor ()
      ensures fresh(assets) && Snapshot() == Assets(map[], map[], map[], map[], map[])
    {
      assets := new GpuAssets();
      materials := map[];
    }

    function Snapshot(): Assets<M> reads this, assets {
      Assets(assets.buffers, assets.textures, assets.bindGroups, assets.layouts, materials)
    }

    /** One drained event. */
    method Handle(e: AssetEvent, scene: Scene<M>, ghost data: SceneData<M>, cv: Conversions, createLayout: M -> (Uuid, Layout))
        returns (ok: bool)
      requires data == scene.Data()
      modifies this, assets
      ensures ok == ApplyEvent(old(Snapshot()), e, data, cv, createLayout).Ok?
      ensures ok ==> Snapshot() == ApplyEvent(old(Snapshot()), e, data, cv, createLayout).value
    {
      var u := e.uuid;
      ok := true;
      match e
      case Added(_, Mesh) =>
        if u !in scene.meshes {
          ok := false;
        } else {
          var b := scene.meshes[u].Transfer(cv.vertex);
          assert data.meshes[u] == scene.meshes[u].raw;
          assets.buffers := assets.buffers[u := b.State()];
        }
      case Added(_, Material) =>
        if u !in scene.materials {
          ok := false;
        } else {
          var (m, ty) := scene.materials[u];
          if ty !in assets.layouts {
            var (key, layout) := createLayout(m);
            assets.layouts := assets.layouts[key := layout];
          }
          materials := materials[u := m];
        }
      case Added(_, Image) =>
        if u !in scene.images {
          ok := false;
        } else {
          assets.textures := assets.textures[u := SR.ImageTexture(scene.images[u])];
        }
      case Added(_, StaticMesh) =>
      case Removed(_, Mesh) =>
        assets.buffers := assets.buffers - {u};
      case Removed(_, Material) =>
        assets.bindGroups := assets.bindGroups - {u};
        materials := materials - {u};
      case Removed(_, Image) =>
        assets.textures := assets.textures - {u};
      case Removed(_, StaticMesh) =>
    }

    /** The first half of `sync`: the camera buffer, then the five light
     *  buffers, inserted under their keys. */
    method InsertLights(c: SR.Camera, lights: seq<Light>, keys: LightKeys, cv: Conversions)
      modifies assets
      ensures assets.buffers == LightsInserted(old(assets.buffers), c, lights, keys, cv)
      ensures assets.textures == old(assets.textures) && assets.bindGroups == old(assets.bindGroups)
      ensures assets.layouts == old(assets.layouts)
    {
      var camera := new DynamicGpuBuffer({UNIFORM});
      var _ := camera.Push(cv.camera(SR.TransferCamera(c)));
      camera.Write();
      assets.buffers := assets.buffers[CAMERA_UUID := camera.State()];

      var dir, point, spot, area, verts := FillLights(lights, cv);
      assets.buffers := assets.buffers[DIR_LIGHT_UUID := cv.safeWrite(dir.State())];
      assets.buffers := assets.buffers[keys.point := cv.safeWrite(point.State())];
      assets.buffers := assets.buffers[keys.spot := cv.safeWrite(spot.State())];
      assets.buffers := assets.buffers[keys.area := cv.safeWrite(area.State())];
      assets.buffers := assets.buffers[keys.areaVertices := cv.safeWrite(verts.State())];
    }

    /** The second half of `sync`: the scene's events, drained in order. A
     *  panic stops the events that follow. */
    method DrainEvents(scene: Scene<M>, cv: Conversions, createLayout: M -> (Uuid, Layout)) returns (r: Result<(), Panic>)
      modifies this, assets, scene
      ensures var res := ApplyEvents(old(Snapshot()), old(scene.assetEvents), old(scene.Data()), cv, createLayout);
        && (r.Ok? <==> res.Ok?)
        && (r.Ok? ==> Snapshot() == res.value && scene.assetEvents == [])
      ensures r.Err? ==> r.error == MissingKey
      ensures scene.camera == old(scene.camera) && scene.lights == old(scene.lights) && scene.meshes == old(scene.meshes)
      ensures scene.images == old(scene.images) && scene.materials == old(scene.materials)
    {
      ghost var data := scene.Data();
      ghost var start := Snapshot();
      var events := scene.assetEvents;
      r := Ok(());
      var i := 0;
      while i < |events|
        invariant 0 <= i <= |events|
        invariant data == scene.Data()
        invariant scene.assetEvents == events
        invariant scene.camera == old(scene.camera) && scene.lights == old(scene.lights) && scene.meshes == old(scene.meshes)
        invariant scene.images == old(scene.images) && scene.materials == old(scene.materials)
        invariant ApplyEvents(start, events[..i], data, cv, createLayout) == Ok(Snapshot())
      {
        ghost var before := Snapshot();
        ApplyEventsSnoc(start, events, i, before, data, cv, createLayout);
        var ok := Handle(events[i], scene, data, cv, createLayout);
        if !ok {
          r := Err(MissingKey);
          ApplyEventsStopsAtPanic(start, events, i + 1, data, cv, createLayout);
          return;
        }
        i := i + 1;
      }
      assert events[..|events|] == events;
      scene.assetEvents := [];
    }

    /** `sync`. */
    method Sync(scene: Scene<M>, keys: LightKeys, cv: Conversions, createLayout: M -> (Uuid, Layout)) returns (r: Result<(), Panic>)
      modifies this, assets, scene
      ensures var start := old(Snapshot()).(buffers := LightsInserted(old(assets.buffers), old(scene.camera), old(scene.lights), keys, cv));
        var res := ApplyEvents(start, old(scene.assetEvents), old(scene.Data()), cv, createLayout);
        && (r.Ok? <==> res.Ok?)
        && (r.Ok? ==> Snapshot() == res.value && scene.assetEvents == [])
      ensures r.Err? ==> r.error == MissingKey
      ensures scene.camera == old(scene.camera) && scene.lights == old(scene.lights) && scene.meshes == old(scene.meshes)
      ensures scene.images == old(scene.images) && scene.materials == old(scene.materials)
    {
      InsertLights(scene.camera, scene.lights, keys, cv);
      assert scene.Data() == old(scene.Data());
      assert Snapshot() == old(Snapshot()).(buffers := LightsInserted(old(assets.buffers), old(scene.camera), old(scene.lights), keys, cv));
      r := DrainEvents(scene, cv, createLayout);
    }
  }

  /** One more drained event, after a prefix that did not panic. */
  lemma {:induction false} ApplyEventsSnoc<M>(a: Assets<M>, es: seq<AssetEvent>, i: nat, b: Assets<M>, s: SceneData<M>, cv: Conversions,
                                              createLayout: M -> (Uuid, Layout))
    requires i < |es| && ApplyEvents(a, es[..i], s, cv, createLayout) == Ok(b)
    ensures ApplyEvents(a, es[..i + 1], s, cv, createLayout) == ApplyEvent(b, es[i], s, cv, createLayout)
  {
    assert es[..i + 1][..i] == es[..i];
  }

  /** Once a prefix of the events panics, so does the whole list. */
  lemma {:induction false} ApplyEventsStopsAtPanic<M>(a: Assets<M>, es: seq<AssetEvent>, k: nat, s: SceneData<M>, cv: Conversions, createLayout: M -> (Uuid, Layout))
    requires k <= |es|
    requires ApplyEvents(a, es[..k], s, cv, createLayout).Err?
    ensures ApplyEvents(a, es, s, cv, createLayout) == ApplyEvents(a, es[..k], s, cv, createLayout)
    decreases |es| - k
  {
    if k == |es| {
      assert es[..k] == es;
    } else {
      assert es[..k + 1][..k] == es[..k];
      ApplyEventsStopsAtPanic(a, es, k + 1, s, cv, createLayout);
    }
  }
}
