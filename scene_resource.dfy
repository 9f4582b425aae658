/** The `core` crate's scene resources as the GPU receives them: camera and
 *  light records, the cameras a light's shadow map is rendered from, and
 *  the vertex-list mesh read from an OBJ file with its tangents.
 *
 *  Scene transforms and projections are those of `SceneComponent` (no
 *  scale; orthographic depth reversed); the GPU records are those of
 *  `Helper`. */
module SceneResource {
  import opened Common
  import opened Matrix
  import SC = SceneComponent
  import Helper
  import CubeMap
  import Color
  import opened ObjImport
  import opened Tangent
  import opened Buffers
  import TextureUtil

  // ---------------------------------------------------------------------
  // Transfers

  datatype Camera = Camera(transform: SC.Transform, projection: SC.CameraProjection, exposure: Helper.Exposure)

  /** Light colours are stored sRGB-encoded (`palette::Srgb`). */
  datatype DirectionalLight = DirectionalLight(transform: SC.Transform, color: Vec3, intensity: real)
  datatype PointLight = PointLight(transform: SC.Transform, color: Vec3, intensity: real)
  datatype SpotLight = SpotLight(transform: SC.Transform, color: Vec3, intensity: real, innerAngle: real, outerAngle: real)
  datatype Light = Directional(d: DirectionalLight) | Point(p: PointLight) | Spot(s: SpotLight)

  /** `into_linear().to_vec3()`: the sRGB curve on each channel. */
  function Linearised(c: Vec3, pow: Color.Pow): (r: Vec3)
    ensures c == ZERO3 ==> r == ZERO3
  {
    Vec3(Color.Gamma(c.x, pow), Color.Gamma(c.y, pow), Color.Gamma(c.z, pow))
  }

  /** `local_neg_z`: where the transform's rotation sends -Z. */
  function Forward(t: SC.Transform, mul: Helper.RotateVec): Vec3 {
    mul(t.rotation, CubeMap.NEG_Z)
  }

  function TransferCamera(c: Camera): (g: Helper.GpuCamera)
    ensures g.positionWs == c.transform.translation
    ensures g.exposure == c.exposure.ev100
    ensures g.view == Inverse(FromRotationTranslation(c.transform.rotation, c.transform.translation))
    ensures g.proj == SC.ProjectionMatrix(c.projection)
  {
    Helper.GpuCamera(Inverse(SC.TransformMatrix(c.transform)), SC.ProjectionMatrix(c.projection),
                     c.transform.translation, c.exposure.ev100)
  }

  /** The same camera placed with the render-side transform of unit scale. */
  function AsHelperCamera(c: Camera): Helper.Camera {
    var proj := match c.projection
      case Perspective(p) => Helper.Perspective(Helper.PerspectiveProjection(p.fov, p.aspectRatio, p.near, p.far))
      case Orthographic(o) => Helper.Orthographic(Helper.OrthographicProjection(o.left, o.right, o.bottom, o.top, o.near, o.far));
    Helper.Camera(Helper.Transform(c.transform.translation, c.transform.rotation, Helper.ONE3), proj, c.exposure)
  }

  /** The scene transfer and the render-side `Into<GpuCamera>` agree on a
   *  perspective camera; for an orthographic camera with distinct planes
   *  they differ, because only the scene projection reverses depth. */
  lemma CameraTransfersCompared(c: Camera)
    ensures c.projection.Perspective? ==> TransferCamera(c) == Helper.CameraToGpu(AsHelperCamera(c))
    ensures c.projection.Orthographic? && c.projection.o.near != c.projection.o.far ==>
              TransferCamera(c) != Helper.CameraToGpu(AsHelperCamera(c))
              && TransferCamera(c).proj.zNear == Helper.CameraToGpu(AsHelperCamera(c)).proj.zFar
  {
  }

  function TransferDirectional(l: DirectionalLight, mul: Helper.RotateVec, pow: Color.Pow): (g: Helper.GpuDirectionalLight)
    ensures g.direction == Forward(l.transform, mul)
    ensures g.color == Linearised(l.color, pow) && g.intensity == l.intensity
  {
    Helper.GpuDirectionalLight(Forward(l.transform, mul), Linearised(l.color, pow), l.intensity)
  }

  function TransferPoint(l: PointLight, pow: Color.Pow): (g: Helper.GpuPointLight)
    ensures g.position == l.transform.translation
    ensures g.color == Linearised(l.color, pow) && g.intensity == l.intensity
  {
    Helper.GpuPointLight(l.transform.translation, Linearised(l.color, pow), l.intensity)
  }

  function TransferSpot(l: SpotLight, mul: Helper.RotateVec, pow: Color.Pow): (g: Helper.GpuSpotLight)
    ensures g.position == l.transform.translation && g.direction == Forward(l.transform, mul)
    ensures g.color == Linearised(l.color, pow) && g.intensity == l.intensity
    ensures g.innerAngle == l.innerAngle && g.outerAngle == l.outerAngle
  {
    Helper.GpuSpotLight(l.transform.translation, Forward(l.transform, mul), Linearised(l.color, pow),
                        l.intensity, l.innerAngle, l.outerAngle)
  }

  /** A spot light transfers to the point light at the same place with the
   *  same colour and intensity, plus its direction and cone; a black light
   *  stays black. */
  lemma SpotExtendsPoint(l: SpotLight, mul: Helper.RotateVec, pow: Color.Pow)
    ensures var s := TransferSpot(l, mul, pow);
            var p := TransferPoint(PointLight(l.transform, l.color, l.intensity), pow);
            s.position == p.position && s.color == p.color && s.intensity == p.intensity
    ensures l.color == ZERO3 ==> TransferSpot(l, mul, pow).color == ZERO3
  {
  }

  // ---------------------------------------------------------------------
  // `Light::as_cameras`

  /** The projection of a directional light's shadow camera:
   *  `OrthographicProjection::symmetric(32, 32, 10, -10)` through the scene
   *  projection, which swaps its planes. */
  function DirectionalShadowProjection(): (m: Mat4)
    ensures m == OrthographicRh(-16.0, 16.0, -16.0, 16.0, -10.0, 10.0)
  {
    var s := Helper.Symmetric(32.0, 32.0, 10.0, -10.0);
    SC.ProjectionMatrix(SC.Orthographic(SC.OrthographicProjection(s.left, s.right, s.bottom, s.top, s.near, s.far)))
  }

  /** The camera of one cube face for a light at `position`. */
  function FaceCamera(position: Vec3, face: CubeMap.CubeMapFace): Helper.GpuCamera {
    var trans := SC.Transform(position, Facing(ZERO3, face.target, face.up));
    Helper.GpuCamera(Inverse(SC.TransformMatrix(trans)), Helper.CUBE_FACE_PROJECTION, trans.translation, 0.0)
  }

  /** The shadow cameras of a light. The real camera is not consulted. */
  function AsCameras(light: Light, realCamera: Camera): (cs: seq<Helper.GpuCamera>)
    ensures light.Directional? ==> |cs| == 1
    ensures !light.Directional? ==> |cs| == |CubeMap.CUBE_MAP_FACES|
    ensures forall i :: 0 <= i < |cs| ==> cs[i].exposure == 0.0
    ensures forall i :: 0 <= i < |cs| ==> cs[i].positionWs == LightTranslation(light)
  {
    match light
    case Directional(l) =>
      [Helper.GpuCamera(Inverse(SC.TransformMatrix(l.transform)), DirectionalShadowProjection(),
                        l.transform.translation, 0.0)]
    case Point(l) =>
      seq(6, i requires 0 <= i < 6 => FaceCamera(l.transform.translation, CubeMap.CUBE_MAP_FACES[i]))
    case Spot(l) =>
      seq(6, i requires 0 <= i < 6 => FaceCamera(l.transform.translation, CubeMap.CUBE_MAP_FACES[i]))
  }

  function LightTranslation(light: Light): Vec3 {
    match light
    case Directional(l) => l.transform.translation
    case Point(l) => l.transform.translation
    case Spot(l) => l.transform.translation
  }

  /** Point and spot shadow cameras are exactly the render-side cube views
   *  at the light's position, so the spot's rotation and cone are ignored;
   *  the directional camera looks along the light's own placement. */
  lemma {:induction false} AsCamerasMatchLightViews(light: Light, realCamera: Camera)
    ensures forall other :: AsCameras(light, other) == AsCameras(light, realCamera)
    ensures !light.Directional? ==> AsCameras(light, realCamera) == Helper.CubeViews(LightTranslation(light))
    ensures light.Directional? ==>
              AsCameras(light, realCamera)[0].view == Inverse(SC.TransformMatrix(light.d.transform))
              && AsCameras(light, realCamera)[0].proj.zNear < AsCameras(light, realCamera)[0].proj.zFar
  {
    if !light.Directional? {
      var cs := AsCameras(light, realCamera);
      var vs := Helper.CubeViews(LightTranslation(light));
      forall i | 0 <= i < 6
        ensures cs[i] == vs[i]
      {
        assert cs[i] == FaceCamera(LightTranslation(light), CubeMap.CUBE_MAP_FACES[i]);
      }
    }
  }

  // ---------------------------------------------------------------------
  // Image

  /** An RGBA8 image: width, height and the row-major bytes. */
  datatype Image = Image(width: nat, height: nat, raw: seq<byte>)

  /** A device texture and the bytes it was initialised with. */
  datatype Texture = Texture(desc: TextureUtil.TextureDescriptor, data: seq<byte>)

  const COPY_DST_USAGE: nat := 2
  const TEXTURE_BINDING_USAGE: nat := 4

  /** `transfer` of an image: one 2D sRGB RGBA8 layer of the image's size,
   *  one mip level and one sample, initialised with the image's bytes. */
  function ImageTexture(img: Image): (t: Texture)
    ensures t.desc.width == img.width && t.desc.height == img.height && t.desc.depthOrArrayLayers == 1
    ensures t.desc.mipLevelCount == 1 && t.desc.sampleCount == 1
    ensures t.desc.dimension == TextureUtil.D2
    ensures t.desc.format == TextureUtil.Rgba8UnormSrgb && t.desc.viewFormats == [TextureUtil.Rgba8UnormSrgb]
    ensures t.data == img.raw
  {
    Texture(TextureUtil.TextureDescriptor(img.width, img.height, 1, 1, 1, TextureUtil.D2,
                                          TextureUtil.Rgba8UnormSrgb, {COPY_DST_USAGE, TEXTURE_BINDING_USAGE},
                                          [TextureUtil.Rgba8UnormSrgb]),
            img.raw)
  }

  /** An image texture is the one `create_texture` would describe for a
   *  single layer of the image's size, whenever the image is more than one
   *  texel high. */
  lemma ImageTextureIsCreated(img: Image)
    requires img.height != 1
    ensures ImageTexture(img).desc
            == TextureUtil.CreateTexture(TextureUtil.UVec3(img.width, img.height, 1), TextureUtil.Rgba8UnormSrgb,
                                         {COPY_DST_USAGE, TEXTURE_BINDING_USAGE})
  {
  }

  // ---------------------------------------------------------------------
  // Mesh

  datatype Vertex = Vertex(position: Vec3, normal: Vec3, uv: Vec2, tangent: Vec4)

  function Positions(vs: seq<Vertex>): (r: seq<Vec3>)
    ensures |r| == |vs| && forall i :: 0 <= i < |vs| ==> r[i] == vs[i].position
  {
    seq(|vs|, i requires 0 <= i < |vs| => vs[i].position)
  }

  function Normals(vs: seq<Vertex>): (r: seq<Vec3>)
    ensures |r| == |vs| && forall i :: 0 <= i < |vs| ==> r[i] == vs[i].normal
  {
    seq(|vs|, i requires 0 <= i < |vs| => vs[i].normal)
  }

  function Uvs(vs: seq<Vertex>): (r: seq<Vec2>)
    ensures |r| == |vs| && forall i :: 0 <= i < |vs| ==> r[i] == vs[i].uv
  {
    seq(|vs|, i requires 0 <= i < |vs| => vs[i].uv)
  }

  /** The vertices with their tangents recomputed: everything else is kept,
   *  and every tangent carries a handedness of exactly +1 or -1. */
  function WithTangents(vs: seq<Vertex>, recip: Recip): (r: seq<Vertex>)
    ensures |r| == |vs|
    ensures forall i :: 0 <= i < |vs| ==>
              r[i].position == vs[i].position && r[i].normal == vs[i].normal && r[i].uv == vs[i].uv
    ensures forall i :: 0 <= i < |vs| ==> r[i].tangent.w == 1.0 || r[i].tangent.w == -1.0
  {
    seq(|vs|, i requires 0 <= i < |vs| =>
      vs[i].(tangent := TangentOf(Positions(vs), Normals(vs), Uvs(vs), |vs|, i, recip)))
  }

  /** The `i`-th vertex with its tangent recomputed, from the bases the
   *  first loop accumulated for it. */
  lemma WithTangentsAt(vs: seq<Vertex>, recip: Recip, t: Vec3, b: Vec3, i: nat)
    requires i < |vs|
    requires t == Accumulated(Positions(vs), Uvs(vs), |vs|, i, recip).0
    requires b == Accumulated(Positions(vs), Uvs(vs), |vs|, i, recip).1
    ensures WithTangents(vs, recip)[i] == vs[i].(tangent := FinishVertex(t, b, vs[i].normal, recip))
  {
    assert Normals(vs)[i] == vs[i].normal;
  }

  /** The tangents depend only on positions, normals and texture
   *  coordinates, so recomputing them a second time changes nothing. */
  lemma {:induction false} WithTangentsIdempotent(vs: seq<Vertex>, recip: Recip)
    ensures WithTangents(WithTangents(vs, recip), recip) == WithTangents(vs, recip)
  {
    var w := WithTangents(vs, recip);
    assert Positions(w) == Positions(vs);
    assert Normals(w) == Normals(vs);
    assert Uvs(w) == Uvs(vs);
  }

  /** The vertex of a resolved OBJ corner, its tangent still the default. */
  function CornerVertex(c: Corner): Vertex {
    Vertex(c.position, c.normal, c.uv, Vec4(0.0, 0.0, 0.0, 0.0))
  }

  function CornerVertices(cs: seq<Corner>): (r: seq<Vertex>)
    ensures |r| == |cs|
    ensures forall i :: 0 <= i < |cs| ==>
              r[i].position == cs[i].position && r[i].normal == cs[i].normal && r[i].uv == cs[i].uv
  {
    seq(|cs|, i requires 0 <= i < |cs| => CornerVertex(cs[i]))
  }

  /** `Mesh`: a list of whole vertices. */
  class Mesh {
    var raw: seq<Vertex>

    constructor (raw: seq<Vertex>)
      ensures this.raw == raw
    {
      this.raw := raw;
    }

    /** `vertices_count`: the vertex count, cast to `u32`. */
    function VerticesCount(): (n: nat)
      reads this
      ensures n < 0x1_0000_0000
      ensures |raw| < 0x1_0000_0000 ==> n == |raw|
    {
      AsU32(|raw|)
    }

    /** `recalculate_tangent`: accumulate per triangle, then write each
     *  vertex's tangent in place. */
    method RecalculateTangent(recip: Recip)
      modifies this
      ensures raw == WithTangents(old(raw), recip)
    {
      var ps, ns, uvs := Positions(raw), Normals(raw), Uvs(raw);
      var tangents, bitangents := AccumulateBases(ps, uvs, |raw|, recip);
      ghost var before := raw;
      for iVert := 0 to |raw|
        invariant |raw| == |before|
        invariant forall i :: 0 <= i < iVert ==> raw[i] == WithTangents(before, recip)[i]
        invariant forall i :: iVert <= i < |raw| ==> raw[i] == before[i]
      {
        WithTangentsAt(before, recip, tangents[iVert], bitangents[iVert], iVert);
        raw := raw[iVert := raw[iVert].(tangent := FinishVertex(tangents[iVert], bitangents[iVert], raw[iVert].normal, recip))];
      }
    }

    /** `transfer`: a vertex buffer holding every vertex's bytes in order,
     *  written to the device at once. */
    method Transfer(toBytes: Vertex -> seq<byte>) returns (b: DynamicGpuBuffer)
      ensures fresh(b)
      ensures b.State() == DynamicWritten(BufferState(VertexBytes(raw, toBytes), None, true, {VERTEX}))
      ensures b.raw == VertexBytes(raw, toBytes)
      ensures b.raw != [] ==> b.buffer == Some(DeviceBuffer(b.raw, {VERTEX})) && !b.changed
    {
      b := new DynamicGpuBuffer({VERTEX});
      b.Set(VertexBytes(raw, toBytes));
      b.Write();
    }
  }

  /** The bytes of a vertex list, vertex after vertex. */
  function VertexBytes(vs: seq<Vertex>, toBytes: Vertex -> seq<byte>): seq<byte> {
    Flatten(seq(|vs|, i requires 0 <= i < |vs| => toBytes(vs[i])))
  }

  /** `Mesh::from_obj`: one mesh per object, keeping the last group of each
   *  (the vertex list is cleared at every group), tangents recomputed. */
  method MeshesFromObj(obj: ObjData, recip: Recip) returns (r: Result<seq<Mesh>, Panic>)
    ensures r.Ok? ==> |r.value| == |obj.objects|
    ensures r.Ok? ==> forall i :: 0 <= i < |r.value| ==>
              fresh(r.value[i])
              && GroupsCorners(obj, obj.objects[i].groups, true).Ok?
              && r.value[i].raw == WithTangents(CornerVertices(LastOr([], GroupsCorners(obj, obj.objects[i].groups, true).value)), recip)
    ensures r.Ok? ==> forall i :: 0 <= i < |r.value| ==> |r.value[i].raw| % 3 == 0
    ensures r.Ok? <==> forall i :: 0 <= i < |obj.objects| ==> GroupsCorners(obj, obj.objects[i].groups, true).Ok?
    ensures r.Err? ==> r.error in {Unreachable, IndexOutOfBounds}
  {
    var lists := PerObjectLastGroup(obj);
    if lists.Err? {
      return Err(lists.error);
    }
    var meshes := MeshesOf(lists.value, recip);
    r := Ok(meshes);
  }

  /** The loop of `from_obj` that turns each object's corner list into a
   *  fresh mesh and recomputes its tangents. */
  method MeshesOf(lists: seq<seq<Corner>>, recip: Recip) returns (meshes: seq<Mesh>)
    ensures |meshes| == |lists|
    ensures forall j :: 0 <= j < |lists| ==>
              fresh(meshes[j]) && meshes[j].raw == WithTangents(CornerVertices(lists[j]), recip)
  {
    meshes := [];
    for i := 0 to |lists|
      invariant |meshes| == i
      invariant forall j :: 0 <= j < i ==>
                  fresh(meshes[j]) && meshes[j].raw == WithTangents(CornerVertices(lists[j]), recip)
    {
      var mesh := new Mesh(CornerVertices(lists[i]));
      mesh.RecalculateTangent(recip);
      meshes := meshes + [mesh];
    }
  }
}
