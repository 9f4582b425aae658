/** The glTF importer of the chest renderer (`chest/src/import/gltf.rs`): a
 *  parsed glTF document becomes a scene of one camera, decoded textures,
 *  meshes with their PBR materials, and punctual lights.
 *
 *  The document is taken as the `gltf` crate hands it over, with every
 *  index-valued field that `json.get(..).unwrap()` resolves kept as an
 *  index into the document's own lists. Vertex data is followed as far as
 *  how many elements each stream gains; the floats themselves, image
 *  decoding and GPU uploads are not part of this model. */
module GltfImport {
  import opened Common
  import opened ResultFold
  import opened GltfData
  import Matrix
  import Helper
  import RS = RenderScene
  import CM = ChestMaterial

  // ---------------------------------------------------------------------
  // The parsed document.

  datatype OrthographicCamera = OrthographicCamera(xmag: real, ymag: real, znear: real, zfar: real)
  datatype PerspectiveCamera = PerspectiveCamera(yfov: real, aspectRatio: Option<real>, znear: real, zfar: Option<real>)

  /** A camera object; which projection it has is whichever part is present. */
  datatype GltfCamera = GltfCamera(orthographic: Option<OrthographicCamera>, perspective: Option<PerspectiveCamera>)

  datatype LightType = DirectionalType | PointType | SpotType
  datatype SpotCone = SpotCone(innerConeAngle: real, outerConeAngle: real)

  /** A `KHR_lights_punctual` light; no type when the document names one
   *  the crate does not know. */
  datatype PunctualLight = PunctualLight(type_: Option<LightType>, color: Vec3, intensity: real, spot: Option<SpotCone>)

  datatype GltfMaterial = GltfMaterial(
    baseColorFactor: Vec4,
    baseColorTexture: Option<nat>,
    normalTexture: Option<nat>,
    occlusionTexture: Option<nat>,
    metallicRoughnessTexture: Option<nat>,
    roughnessFactor: real,
    metallicFactor: real)

  datatype Accessor = Accessor(dataType: DataType, view: Option<View>)
  datatype Attribute = Attribute(semantic: Semantic, accessor: Accessor)

  /** A primitive: whether its mode is triangles, its material, its index
   *  accessor and its vertex attributes in the order the attribute map yields them. */
  datatype Primitive = Primitive(triangles: bool, material: Option<nat>, indices: Option<Accessor>, attributes: seq<Attribute>)
  datatype GltfMesh = GltfMesh(primitives: seq<Primitive>)

  /** Where a texture's image is: a buffer view of a given MIME type, or a URI. */
  datatype ImageSource = ViewImage(view: View, mimeType: string) | UriImage(uri: string)

  datatype GltfNode = GltfNode(
    camera: Option<nat>,
    mesh: Option<nat>,
    light: Option<nat>,
    translation: Option<Vec3>,
    rotation: Option<Matrix.Quat>,
    scale: Option<Vec3>)

  datatype Document = Document(
    cameras: seq<GltfCamera>,
    materials: seq<GltfMaterial>,
    buffers: seq<BufferSource>,
    blob: Option<seq<byte>>,
    textures: seq<ImageSource>,
    meshes: seq<GltfMesh>,
    lights: seq<PunctualLight>,
    nodes: seq<GltfNode>)

  function Or<T>(o: Option<T>, default: T): T {
    if o.Some? then o.value else default
  }

  // ---------------------------------------------------------------------
  // Image formats.

  datatype ImageFormat = Avif | Bmp | Dds | Hdr | Gif | Ico | Jpeg | Png | OpenExr | Pnm | Tga | Tiff | WebP

  function LowerChar(c: char): (r: char)
    ensures !('A' <= r <= 'Z')
    ensures !('A' <= c <= 'Z') ==> r == c
  {
    if 'A' <= c <= 'Z' then (c as int + 32) as char else c
  }

  /** `to_ascii_lowercase`: ASCII capitals lowered, everything else kept. */
  function AsciiLower(s: string): (r: string)
    ensures |r| == |s| && forall i :: 0 <= i < |s| ==> r[i] == LowerChar(s[i])
  {
    seq(|s|, i requires 0 <= i < |s| => LowerChar(s[i]))
  }

  /** The MIME types the importer knows, lower-cased. */
  const IMAGE_MIME_TYPES: set<string> := {
    "image/avif", "image/bmp", "image/x-bmp", "image/vnd-ms.dds", "image/vnd.radiance",
    "image/gif", "image/x-icon", "image/jpeg", "image/png", "image/x-exr",
    "image/x-portable-bitmap", "image/x-portable-graymap", "image/x-portable-pixmap",
    "image/x-portable-anymap", "image/x-targa", "image/x-tga", "image/tiff", "image/webp"}

  /** The MIME table on a lower-cased type. */
  function FormatOfLower(m: string): (r: Option<ImageFormat>)
    ensures r.Some? <==> m in IMAGE_MIME_TYPES
  {
    if m == "image/avif" then Some(Avif)
    else if m == "image/bmp" || m == "image/x-bmp" then Some(Bmp)
    else if m == "image/vnd-ms.dds" then Some(Dds)
    else if m == "image/vnd.radiance" then Some(Hdr)
    else if m == "image/gif" then Some(Gif)
    else if m == "image/x-icon" then Some(Ico)
    else if m == "image/jpeg" then Some(Jpeg)
    else if m == "image/png" then Some(Png)
    else if m == "image/x-exr" then Some(OpenExr)
    else if m == "image/x-portable-bitmap" || m == "image/x-portable-graymap"
         || m == "image/x-portable-pixmap" || m == "image/x-portable-anymap" then Some(Pnm)
    else if m == "image/x-targa" || m == "image/x-tga" then Some(Tga)
    else if m == "image/tiff" then Some(Tiff)
    else if m == "image/webp" then Some(WebP)
    else None
  }

  /** The image format a MIME type names, whatever its case; nothing (the
   *  importer panics) for a type it does not know. */
  function ImageFormatOf(mimeType: string): (r: Option<ImageFormat>)
    ensures r.Some? <==> AsciiLower(mimeType) in IMAGE_MIME_TYPES
  {
    FormatOfLower(AsciiLower(mimeType))
  }

  /** Lower-casing twice changes nothing more. */
  lemma AsciiLowerIdempotent(s: string)
    ensures AsciiLower(AsciiLower(s)) == AsciiLower(s)
  {
    var once := AsciiLower(s);
    assert forall i :: 0 <= i < |s| ==> LowerChar(once[i]) == once[i];
  }

  /** The case of a MIME type does not matter. */
  lemma ImageFormatIgnoresCase(mimeType: string)
    ensures ImageFormatOf(AsciiLower(mimeType)) == ImageFormatOf(mimeType)
  {
    AsciiLowerIdempotent(mimeType);
  }

  // ---------------------------------------------------------------------
  // Textures.

  /** The texture indices some material reads as linear data: its normal,
   *  occlusion or metallic-roughness texture. */
  predicate LinearUse(m: GltfMaterial, t: nat) {
    m.normalTexture == Some(t) || m.occlusionTexture == Some(t) || m.metallicRoughnessTexture == Some(t)
  }

  /** The `linear_textures` set: every texture some material uses as a
   *  normal, occlusion or metallic-roughness map, and no other. */
  method LinearTextures(materials: seq<GltfMaterial>) returns (linear: set<nat>)
    ensures forall t :: t in linear <==> exists i :: 0 <= i < |materials| && LinearUse(materials[i], t)
  {
    linear := {};
    for i := 0 to |materials|
      invariant forall t :: t in linear <==> exists j :: 0 <= j < i && LinearUse(materials[j], t)
    {
      var m := materials[i];
      ghost var before := linear;
      if m.normalTexture.Some? {
        linear := linear + {m.normalTexture.value};
      }
      if m.occlusionTexture.Some? {
        linear := linear + {m.occlusionTexture.value};
      }
      if m.metallicRoughnessTexture.Some? {
        linear := linear + {m.metallicRoughnessTexture.value};
      }
      assert forall t :: t in linear <==> t in before || LinearUse(m, t);
    }
  }

  /** An image handed to the decoder: bytes of a known format with the
   *  colour space to read them in, or a file. */
  datatype LoadedImage = Encoded(bytes: seq<byte>, format: ImageFormat, srgb: bool) | FromFile(path: string, bytes: seq<byte>)

  /** One texture's image. From a view: the view's exact bytes, in the
   *  format its MIME type names (a panic for an unknown one), read as sRGB
   *  unless the texture is linear. From a URI: the file it percent-decodes
   *  to, both steps unwrapped. */
  function TextureImage(index: nat, src: ImageSource, buffers: seq<seq<byte>>, linear: set<nat>, env: Env)
    : (r: Result<LoadedImage, Panic>)
    ensures src.ViewImage? ==>
      && (r.Ok? <==> ImageFormatOf(src.mimeType).Some? && ViewBytes(buffers, src.view).Ok?)
      && (ImageFormatOf(src.mimeType).None? ==> r == Err(ExplicitPanic))
      && (r.Err? ==> r.error == ExplicitPanic || r.error == IndexOutOfBounds)
      && (r.Ok? ==> r.value.Encoded? && r.value.bytes == ViewBytes(buffers, src.view).value
                    && Some(r.value.format) == ImageFormatOf(src.mimeType)
                    && (r.value.srgb <==> index !in linear))
    ensures src.UriImage? ==>
      && (r.Ok? <==> env.percentDecode(src.uri).Some? && env.readFile(env.percentDecode(src.uri).value).Some?)
      && (r.Err? ==> r.error == UnwrapNone)
      && (r.Ok? ==> r.value == FromFile(env.percentDecode(src.uri).value, env.readFile(env.percentDecode(src.uri).value).value))
  {
    match src
    case ViewImage(view, mimeType) =>
      var format := ImageFormatOf(mimeType);
      if format.None? then Err(ExplicitPanic)
      else
        var bytes := ViewBytes(buffers, view);
        if bytes.Err? then Err(bytes.error)
        else Ok(Encoded(bytes.value, format.value, index !in linear))
    case UriImage(uri) =>
      var path := env.percentDecode(uri);
      if path.None? then Err(UnwrapNone)
      else
        var file := env.readFile(path.value);
        if file.None? then Err(UnwrapNone) else Ok(FromFile(path.value, file.value))
  }

  /** Each texture's image, by its index in the document. */
  function TextureOf(buffers: seq<seq<byte>>, linear: set<nat>, env: Env): (nat, ImageSource) -> Result<LoadedImage, Panic> {
    (i: nat, src: ImageSource) => TextureImage(i, src, buffers, linear, env)
  }

  /** `load_textures`: one image per texture, in order, or the first panic. */
  method LoadTextures(textures: seq<ImageSource>, buffers: seq<seq<byte>>, linear: set<nat>, env: Env)
      returns (r: Result<seq<LoadedImage>, Panic>)
    ensures r == Collect(textures, TextureOf(buffers, linear, env))
    ensures r.Ok? <==> forall i :: 0 <= i < |textures| ==> TextureImage(i, textures[i], buffers, linear, env).Ok?
    ensures r.Ok? ==> |r.value| == |textures|
                      && forall i :: 0 <= i < |textures| ==> r.value[i] == TextureImage(i, textures[i], buffers, linear, env).value
    ensures r.Err? ==> exists i :: 0 <= i < |textures| && TextureImage(i, textures[i], buffers, linear, env) == Err(r.error)
  {
    var f := TextureOf(buffers, linear, env);
    assert forall i :: 0 <= i < |textures| ==> f(i, textures[i]) == TextureImage(i, textures[i], buffers, linear, env);
    var images := [];
    for i := 0 to |textures|
      invariant Collect(textures[..i], f) == Ok(images)
    {
      var image := TextureImage(i, textures[i], buffers, linear, env);
      CollectNext(textures, i, f);
      if image.Err? {
        CollectStopped(textures, i + 1, f);
        r := Err(image.error);
        CollectCases(textures, f);
        return;
      }
      images := images + [image.value];
    }
    assert textures[..|textures|] == textures;
    r := Ok(images);
    CollectCases(textures, f);
  }

  // ---------------------------------------------------------------------
  // Cameras.

  /** The camera of a document without one: a quarter-pi perspective at a
   *  16:9 aspect ratio with planes at 0.1 and 200. */
  const IMPORT_DEFAULT_CAMERA: Helper.Camera := Helper.Camera(
    Helper.DEFAULT_TRANSFORM,
    Helper.Perspective(Helper.PerspectiveProjection(Matrix.FRAC_PI_4, 1.7777777777, 0.1, 200.0)),
    Helper.DEFAULT_EXPOSURE)

  /** A camera node's transform: its translation and rotation, identity
   *  where absent, at unit scale. */
  function CameraTransform(node: GltfNode): Helper.Transform {
    Helper.Transform(Or(node.translation, ZERO3), Or(node.rotation, Matrix.QUAT_IDENTITY), Helper.ONE3)
  }

  /** The projection as written: an orthographic camera passes `xmag` and
   *  `ymag` to `OrthographicProjection::symmetric` as the full width and
   *  height; a perspective one unwraps its aspect ratio and far plane. */
  function ProjectionAsWritten(c: GltfCamera): (r: Result<Helper.CameraProjection, Panic>)
    ensures c.orthographic.Some? ==>
      var o := c.orthographic.value;
      r.Ok? && r.value.Orthographic?
      && r.value.o.right == o.xmag / 2.0 && r.value.o.left == -o.xmag / 2.0
      && r.value.o.top == o.ymag / 2.0 && r.value.o.bottom == -o.ymag / 2.0
      && r.value.o.near == o.znear && r.value.o.far == o.zfar
    ensures c.orthographic.None? ==> r == PerspectiveOf(c)
  {
    if c.orthographic.Some? then
      var o := c.orthographic.value;
      Ok(Helper.Orthographic(Helper.Symmetric(o.xmag, o.ymag, o.znear, o.zfar)))
    else PerspectiveOf(c)
  }

  /** The perspective part, or `unreachable!` when the camera has neither. */
  function PerspectiveOf(c: GltfCamera): (r: Result<Helper.CameraProjection, Panic>)
    requires c.orthographic.None?
    ensures c.perspective.None? ==> r == Err(Unreachable)
    ensures c.perspective.Some? ==>
      var p := c.perspective.value;
      && (r.Ok? <==> p.aspectRatio.Some? && p.zfar.Some?)
      && (r.Err? ==> r.error == UnwrapNone)
      && (r.Ok? ==> r.value == Helper.Perspective(Helper.PerspectiveProjection(p.yfov, p.aspectRatio.value, p.znear, p.zfar.value)))
  {
    if c.perspective.None? then Err(Unreachable)
    else
      var p := c.perspective.value;
      if p.aspectRatio.None? || p.zfar.None? then Err(UnwrapNone)
      else Ok(Helper.Perspective(Helper.PerspectiveProjection(p.yfov, p.aspectRatio.value, p.znear, p.zfar.value)))
  }

  /** The projection with `xmag` and `ymag` read as glTF defines them, the
   *  half-width and half-height of the view. */
  function Projection(c: GltfCamera): (r: Result<Helper.CameraProjection, Panic>)
    ensures c.orthographic.Some? ==>
      var o := c.orthographic.value;
      r.Ok? && r.value.Orthographic?
      && r.value.o.right == o.xmag && r.value.o.left == -o.xmag
      && r.value.o.top == o.ymag && r.value.o.bottom == -o.ymag
      && r.value.o.near == o.znear && r.value.o.far == o.zfar
    ensures c.orthographic.None? ==> r == PerspectiveOf(c)
  {
    if c.orthographic.Some? then
      var o := c.orthographic.value;
      Ok(Helper.Orthographic(Helper.Symmetric(2.0 * o.xmag, 2.0 * o.ymag, o.znear, o.zfar)))
    else PerspectiveOf(c)
  }

  /** The two differ exactly on orthographic cameras: as written, a camera
   *  with `xmag` 1 sees from -0.5 to 0.5 instead of from -1 to 1. */
  lemma OrthographicViewHalved()
    ensures var c := GltfCamera(Some(OrthographicCamera(1.0, 1.0, 0.1, 100.0)), None);
      ProjectionAsWritten(c).value.o.right == 0.5 && Projection(c).value.o.right == 1.0
  {
  }

  /** `load_camera`: the camera object the node names (which must exist)
   *  seen from the node's transform, at the default exposure, with the
   *  projection as written (an orthographic box of half the glTF size). */
  function LoadCamera(cameras: seq<GltfCamera>, index: nat, node: GltfNode): (r: Result<Helper.Camera, Panic>)
    ensures index >= |cameras| ==> r == Err(UnwrapNone)
    ensures index < |cameras| ==>
      && (r.Ok? <==> ProjectionAsWritten(cameras[index]).Ok?)
      && (r.Err? ==> r.error == ProjectionAsWritten(cameras[index]).error)
      && (r.Ok? ==> r.value.projection == ProjectionAsWritten(cameras[index]).value
                    && r.value.transform.translation == Or(node.translation, ZERO3)
                    && r.value.transform.rotation == Or(node.rotation, Matrix.QUAT_IDENTITY)
                    && r.value.transform.scale == Helper.ONE3
                    && r.value.exposure == Helper.DEFAULT_EXPOSURE)
  {
    if index >= |cameras| then Err(UnwrapNone)
    else
      var projection := ProjectionAsWritten(cameras[index]);
      if projection.Err? then Err(projection.error)
      else Ok(Helper.Camera(CameraTransform(node), projection.value, Helper.DEFAULT_EXPOSURE))
  }

  // ---------------------------------------------------------------------
  // Lights.

  /** The light records the importer fills, each with a radius. */
  datatype ImportedDirectional = ImportedDirectional(direction: Vec3, color: Vec3, intensity: real, radius: real)
  datatype ImportedPoint = ImportedPoint(position: Vec3, color: Vec3, intensity: real, radius: real)
  datatype ImportedSpot = ImportedSpot(position: Vec3, direction: Vec3, color: Vec3, intensity: real, radius: real,
                                       innerAngle: real, outerAngle: real)
  datatype LightSlots = LightSlots(dir: Option<ImportedDirectional>, point: Option<ImportedPoint>, spot: Option<ImportedSpot>)

  const UNIT_Z: Vec3 := Vec3(0.0, 0.0, 1.0)

  /** `load_light`: exactly one of the three slots is filled, by the
   *  light's type (which must be known, and a spot light must carry its
   *  cone). Every light has radius 1; a directional or spot light points
   *  along the node's rotation applied to +Z; a point or spot light sits
   *  at the node's translation. */
  function LoadLight(lights: seq<PunctualLight>, index: nat, node: GltfNode, rotate: Helper.RotateVec)
    : (r: Result<LightSlots, Panic>)
    ensures index >= |lights| ==> r == Err(UnwrapNone)
    ensures index < |lights| ==>
      var l := lights[index];
      var position := Or(node.translation, ZERO3);
      var direction := rotate(Or(node.rotation, Matrix.QUAT_IDENTITY), UNIT_Z);
      && (r.Ok? <==> l.type_.Some? && (l.type_.value == SpotType ==> l.spot.Some?))
      && (r.Err? ==> r.error == UnwrapNone)
      && (r.Ok? ==> (r.value.dir.Some? <==> l.type_ == Some(DirectionalType))
                    && (r.value.point.Some? <==> l.type_ == Some(PointType))
                    && (r.value.spot.Some? <==> l.type_ == Some(SpotType)))
      && (r.Ok? && r.value.dir.Some? ==>
            r.value.dir.value == ImportedDirectional(direction, l.color, l.intensity, 1.0))
      && (r.Ok? && r.value.point.Some? ==>
            r.value.point.value == ImportedPoint(position, l.color, l.intensity, 1.0))
      && (r.Ok? && r.value.spot.Some? ==>
            r.value.spot.value == ImportedSpot(position, direction, l.color, l.intensity, 1.0,
                                               l.spot.value.innerConeAngle, l.spot.value.outerConeAngle))
  {
    if index >= |lights| then Err(UnwrapNone)
    else
      var l := lights[index];
      var position := Or(node.translation, ZERO3);
      var direction := rotate(Or(node.rotation, Matrix.QUAT_IDENTITY), UNIT_Z);
      if l.type_.None? then Err(UnwrapNone)
      else match l.type_.value
        case DirectionalType =>
          Ok(LightSlots(Some(ImportedDirectional(direction, l.color, l.intensity, 1.0)), None, None))
        case PointType =>
          Ok(LightSlots(None, Some(ImportedPoint(position, l.color, l.intensity, 1.0)), None))
        case SpotType =>
          if l.spot.None? then Err(UnwrapNone)
          else
            var cone := l.spot.value;
            Ok(LightSlots(None, None, Some(ImportedSpot(position, direction, l.color, l.intensity, 1.0,
                                                        cone.innerConeAngle, cone.outerConeAngle))))
  }

  // ---------------------------------------------------------------------
  // Materials.

  /** The texture id a texture reference resolves to. */
  function TextureRef(t: Option<nat>, textureIds: seq<RS.Uuid>): (r: Result<Option<RS.Uuid>, Panic>)
    ensures r.Ok? <==> t.None? || t.value < |textureIds|
    ensures r.Err? ==> r.error == IndexOutOfBounds
    ensures r.Ok? ==> (r.value.Some? <==> t.Some?) && (t.Some? ==> r.value.value == textureIds[t.value])
  {
    if t.None? then Ok(None)
    else if t.value < |textureIds| then Ok(Some(textureIds[t.value]))
    else Err(IndexOutOfBounds)
  }

  /** `load_material`: the default material when the primitive names none;
   *  otherwise the named material (which must exist) with its base colour
   *  factor's first three components, its base-colour and normal textures
   *  resolved to ids (a panic for an index past the textures), its
   *  roughness and metallic factors, and reflectance 0.5. */
  function LoadMaterial(index: Option<nat>, materials: seq<GltfMaterial>, textureIds: seq<RS.Uuid>)
    : (r: Result<CM.PbrMaterial, Panic>)
    ensures index.None? ==> r == Ok(CM.DEFAULT_MATERIAL)
    ensures index.Some? && index.value >= |materials| ==> r == Err(UnwrapNone)
    ensures index.Some? && index.value < |materials| ==>
      var m := materials[index.value];
      var base := TextureRef(m.baseColorTexture, textureIds);
      var normal := TextureRef(m.normalTexture, textureIds);
      && (r.Ok? <==> base.Ok? && normal.Ok?)
      && (r.Err? ==> r.error == IndexOutOfBounds)
      && (r.Ok? ==> r.value.baseColor == Vec3(m.baseColorFactor.x, m.baseColorFactor.y, m.baseColorFactor.z)
                    && r.value.texBaseColor == base.value && r.value.texNormal == normal.value
                    && r.value.roughness == m.roughnessFactor && r.value.metallic == m.metallicFactor
                    && r.value.reflectance == 0.5)
  {
    if index.None? then Ok(CM.DEFAULT_MATERIAL)
    else if index.value >= |materials| then Err(UnwrapNone)
    else
      var m := materials[index.value];
      var base := TextureRef(m.baseColorTexture, textureIds);
      var normal := TextureRef(m.normalTexture, textureIds);
      if base.Err? then Err(base.error)
      else if normal.Err? then Err(normal.error)
      else
        var f := m.baseColorFactor;
        Ok(CM.PbrMaterial(Vec3(f.x, f.y, f.z), base.value, normal.value, m.roughnessFactor, m.metallicFactor, 0.5))
  }

  // ---------------------------------------------------------------------
  // Meshes.

  /** The index data of a primitive: how many 16- or 32-bit indices. */
  datatype IndexData = U16Indices(count: nat) | U32Indices(count: nat)

  /** How many elements each vertex stream of a mesh has gathered, and the
   *  index data of its primitives in order. */
  datatype Streams = Streams(positions: nat, normals: nat, tangents: nat, texCoords: nat, indices: seq<IndexData>)

  const NO_STREAMS: Streams := Streams(0, 0, 0, 0, [])

  /** The attributes the importer reads; every other one is `todo!`. */
  predicate Supported(s: Semantic) {
    s.Positions? || s.Normals? || s.Tangents? || s == TexCoords(0)
  }

  /** Floats per element: three for positions and normals, four for
   *  tangents, two for texture coordinates. */
  function Width(s: Semantic): nat
    requires Supported(s)
  {
    match s
    case Positions => 3
    case Normals => 3
    case Tangents => 4
    case _ => 2
  }

  /** The stream of a supported attribute grown by `n` elements. */
  function Grow(st: Streams, s: Semantic, n: nat): Streams
    requires Supported(s)
  {
    match s
    case Positions => st.(positions := st.positions + n)
    case Normals => st.(normals := st.normals + n)
    case Tangents => st.(tangents := st.tangents + n)
    case _ => st.(texCoords := st.texCoords + n)
  }

  /** A primitive's index accessor: its view (which must exist) in range,
   *  read as 16- or 32-bit indices (`unreachable!` for other types; the
   *  bytes must make whole indices). */
  function IndexStream(acc: Accessor, buffers: seq<seq<byte>>): (r: Result<IndexData, Panic>)
    ensures acc.view.None? ==> r == Err(UnwrapNone)
    ensures r.Ok? ==> acc.view.Some? && ViewBytes(buffers, acc.view.value).Ok?
    ensures r.Ok? && acc.dataType == U16 ==> r.value == U16Indices(acc.view.value.length / 2) && acc.view.value.length % 2 == 0
    ensures r.Ok? && acc.dataType == U32 ==> r.value == U32Indices(acc.view.value.length / 4) && acc.view.value.length % 4 == 0
    ensures acc.dataType != U16 && acc.dataType != U32 ==> r.Err?
    ensures r.Ok? <==> acc.view.Some? && ViewBytes(buffers, acc.view.value).Ok?
                       && ((acc.dataType == U16 && acc.view.value.length % 2 == 0)
                           || (acc.dataType == U32 && acc.view.value.length % 4 == 0))
    ensures (acc.view.Some? && ViewBytes(buffers, acc.view.value).Ok?
             && acc.dataType != U16 && acc.dataType != U32) ==> r == Err(Unreachable)
  {
    if acc.view.None? then Err(UnwrapNone)
    else
      var bytes := ViewBytes(buffers, acc.view.value);
      if bytes.Err? then Err(bytes.error)
      else if acc.dataType == U16 then
        if |bytes.value| % 2 == 0 then Ok(U16Indices(|bytes.value| / 2)) else Err(ExplicitPanic)
      else if acc.dataType == U32 then
        if |bytes.value| % 4 == 0 then Ok(U32Indices(|bytes.value| / 4)) else Err(ExplicitPanic)
      else Err(Unreachable)
  }

  /** One vertex attribute: the primitive must be triangles (`assert_eq!`),
   *  the view must exist and lie in its buffer, the attribute must be one
   *  the importer reads, of `f32` components that fill whole floats; its
   *  stream then gains one element per `Width` floats. */
  function AttributeStream(triangles: bool, a: Attribute, buffers: seq<seq<byte>>, st: Streams): (r: Result<Streams, Panic>)
    ensures r.Ok? <==> triangles && a.accessor.view.Some? && ViewBytes(buffers, a.accessor.view.value).Ok?
                       && Supported(a.semantic) && a.accessor.dataType == F32 && a.accessor.view.value.length % 4 == 0
    ensures r.Ok? ==> r.value == Grow(st, a.semantic, a.accessor.view.value.length / 4 / Width(a.semantic))
    ensures !triangles ==> r == Err(AssertFailed)
    ensures triangles && a.accessor.view.None? ==> r == Err(UnwrapNone)
    ensures (triangles && a.accessor.view.Some? && ViewBytes(buffers, a.accessor.view.value).Ok?
             && !Supported(a.semantic)) ==> r == Err(ExplicitPanic)
  {
    if !triangles then Err(AssertFailed)
    else if a.accessor.view.None? then Err(UnwrapNone)
    else
      var bytes := ViewBytes(buffers, a.accessor.view.value);
      if bytes.Err? then Err(bytes.error)
      else if !Supported(a.semantic) then Err(ExplicitPanic)
      else if a.accessor.dataType != F32 then Err(AssertFailed)
      else
        match FloatCount(bytes.value)
        case Err(p) => Err(p)
        case Ok(n) => Ok(Grow(st, a.semantic, n / Width(a.semantic)))
  }

  function AttributeStep(triangles: bool, buffers: seq<seq<byte>>): (Streams, Attribute) -> Result<Streams, Panic> {
    (st: Streams, a: Attribute) => AttributeStream(triangles, a, buffers, st)
  }

  /** One primitive: its indices (when it has an accessor for them), then
   *  its attributes in order. */
  function PrimitiveRead(p: Primitive, buffers: seq<seq<byte>>, st: Streams): Result<Streams, Panic> {
    var withIndices :=
      if p.indices.None? then Ok(st)
      else
        match IndexStream(p.indices.value, buffers)
        case Err(e) => Err(e)
        case Ok(d) => Ok(st.(indices := st.indices + [d]));
    if withIndices.Err? then withIndices
    else Run(p.attributes, withIndices.value, AttributeStep(p.triangles, buffers))
  }

  function PrimitiveStep(buffers: seq<seq<byte>>): (Streams, Primitive) -> Result<Streams, Panic> {
    (st: Streams, p: Primitive) => PrimitiveRead(p, buffers, st)
  }

  /** What a node's mesh becomes: its material, the streams read from its
   *  primitives, whether its tangents are recalculated, and the node's
   *  transform the vertices are moved by. */
  datatype LoadedMesh = LoadedMesh(material: CM.PbrMaterial, streams: Streams, recalculatedTangents: bool,
                                   transform: Helper.Transform)

  /** The node transform a mesh is baked with: scale, rotation and
   *  translation, each the identity where absent. */
  function MeshTransform(node: GltfNode): Helper.Transform {
    Helper.Transform(Or(node.translation, ZERO3), Or(node.rotation, Matrix.QUAT_IDENTITY), Or(node.scale, Helper.ONE3))
  }

  /** The material of a mesh: that of its first primitive, if any. */
  function FirstMaterial(mesh: GltfMesh): Option<nat> {
    if |mesh.primitives| == 0 then None else mesh.primitives[0].material
  }

  /** `load_mesh`: the material first, then every primitive; tangents are
   *  recalculated exactly when no tangent element was read. */
  function MeshLoaded(mesh: GltfMesh, node: GltfNode, buffers: seq<seq<byte>>, materials: seq<GltfMaterial>,
                      textureIds: seq<RS.Uuid>): (r: Result<LoadedMesh, Panic>)
    ensures r.Ok? ==> (r.value.recalculatedTangents <==> r.value.streams.tangents == 0)
    ensures r.Ok? ==> r.value.transform == MeshTransform(node)
    ensures LoadMaterial(FirstMaterial(mesh), materials, textureIds).Err? ==> r.Err?
  {
    match LoadMaterial(FirstMaterial(mesh), materials, textureIds)
    case Err(e) => Err(e)
    case Ok(m) =>
      match Run(mesh.primitives, NO_STREAMS, PrimitiveStep(buffers))
      case Err(e) => Err(e)
      case Ok(st) => Ok(LoadedMesh(m, st, st.tangents == 0, MeshTransform(node)))
  }

  /** Every attribute a successful read went through was a supported one,
   *  of `f32` components, in a triangle primitive. */
  predicate AllSupported(triangles: bool, attrs: seq<Attribute>) {
    forall k :: 0 <= k < |attrs| ==> triangles && Supported(attrs[k].semantic) && attrs[k].accessor.dataType == F32
  }

  /** A successful read of attributes leaves the index data alone and saw
   *  only supported attributes. */
  lemma {:induction false} AttributesReadSupported(triangles: bool, attrs: seq<Attribute>, buffers: seq<seq<byte>>, st: Streams)
    requires Run(attrs, st, AttributeStep(triangles, buffers)).Ok?
    ensures AllSupported(triangles, attrs)
    ensures Run(attrs, st, AttributeStep(triangles, buffers)).value.indices == st.indices
  {
    if |attrs| > 0 {
      var n := |attrs| - 1;
      var step := AttributeStep(triangles, buffers);
      RunPrefixOk(attrs, n, st, step);
      AttributesReadSupported(triangles, attrs[..n], buffers, st);
      var before := Run(attrs[..n], st, step).value;
      assert step(before, attrs[n]) == AttributeStream(triangles, attrs[n], buffers, before);
      assert forall k :: 0 <= k < n ==> attrs[..n][k] == attrs[k];
    }
  }

  /** A mesh whose primitives were all read saw only triangle primitives
   *  with supported attributes, and one index entry per primitive that
   *  has an index accessor. */
  lemma {:induction false} PrimitivesReadSupported(prims: seq<Primitive>, buffers: seq<seq<byte>>, st: Streams)
    requires Run(prims, st, PrimitiveStep(buffers)).Ok?
    ensures forall i :: 0 <= i < |prims| ==> AllSupported(prims[i].triangles, prims[i].attributes)
    ensures |Run(prims, st, PrimitiveStep(buffers)).value.indices| == |st.indices| + IndexedCount(prims)
  {
    if |prims| > 0 {
      var n := |prims| - 1;
      var step := PrimitiveStep(buffers);
      RunPrefixOk(prims, n, st, step);
      PrimitivesReadSupported(prims[..n], buffers, st);
      var before := Run(prims[..n], st, step).value;
      var p := prims[n];
      assert step(before, p) == PrimitiveRead(p, buffers, before);
      var withIndices :=
        if p.indices.None? then before
        else before.(indices := before.indices + [IndexStream(p.indices.value, buffers).value]);
      AttributesReadSupported(p.triangles, p.attributes, buffers, withIndices);
      assert forall i :: 0 <= i < n ==> prims[..n][i] == prims[i];
    }
  }

  /** How many primitives carry an index accessor. */
  function IndexedCount(prims: seq<Primitive>): nat
    decreases |prims|
  {
    if |prims| == 0 then 0
    else IndexedCount(prims[..|prims| - 1]) + (if prims[|prims| - 1].indices.Some? then 1 else 0)
  }

  /** The attribute loop of one primitive. */
  method ReadAttributes(triangles: bool, attrs: seq<Attribute>, buffers: seq<seq<byte>>, st: Streams)
      returns (r: Result<Streams, Panic>)
    ensures r == Run(attrs, st, AttributeStep(triangles, buffers))
  {
    var step := AttributeStep(triangles, buffers);
    var acc := st;
    for i := 0 to |attrs|
      invariant Run(attrs[..i], st, step) == Ok(acc)
    {
      RunNext(attrs, i, st, step);
      assert step(acc, attrs[i]) == AttributeStream(triangles, attrs[i], buffers, acc);
      var next := AttributeStream(triangles, attrs[i], buffers, acc);
      if next.Err? {
        RunStopped(attrs, i + 1, st, step);
        return next;
      }
      acc := next.value;
    }
    assert attrs[..|attrs|] == attrs;
    return Ok(acc);
  }

  /** `load_mesh`, loop by loop. */
  method LoadMesh(mesh: GltfMesh, node: GltfNode, buffers: seq<seq<byte>>, materials: seq<GltfMaterial>,
                  textureIds: seq<RS.Uuid>) returns (r: Result<LoadedMesh, Panic>)
    ensures r == MeshLoaded(mesh, node, buffers, materials, textureIds)
    ensures r.Ok? ==> (r.value.recalculatedTangents <==> r.value.streams.tangents == 0)
                      && r.value.transform == MeshTransform(node)
                      && |r.value.streams.indices| == IndexedCount(mesh.primitives)
                      && forall i :: 0 <= i < |mesh.primitives| ==>
                           AllSupported(mesh.primitives[i].triangles, mesh.primitives[i].attributes)
  {
    var material := LoadMaterial(FirstMaterial(mesh), materials, textureIds);
    if material.Err? {
      return Err(material.error);
    }
    var step := PrimitiveStep(buffers);
    var prims := mesh.primitives;
    var st := NO_STREAMS;
    for i := 0 to |prims|
      invariant Run(prims[..i], NO_STREAMS, step) == Ok(st)
    {
      RunNext(prims, i, NO_STREAMS, step);
      var p := prims[i];
      assert step(st, p) == PrimitiveRead(p, buffers, st);
      var withIndices := st;
      if p.indices.Some? {
        var d := IndexStream(p.indices.value, buffers);
        if d.Err? {
          RunStopped(prims, i + 1, NO_STREAMS, step);
          return Err(d.error);
        }
        withIndices := st.(indices := st.indices + [d.value]);
      }
      var next := ReadAttributes(p.triangles, p.attributes, buffers, withIndices);
      if next.Err? {
        RunStopped(prims, i + 1, NO_STREAMS, step);
        return Err(next.error);
      }
      st := next.value;
    }
    assert prims[..|prims|] == prims;
    PrimitivesReadSupported(prims, buffers, NO_STREAMS);
    r := Ok(LoadedMesh(material.value, st, st.tangents == 0, MeshTransform(node)));
  }

  // ---------------------------------------------------------------------
  // Nodes and the whole import.

  /** The scene an import builds: the camera, each texture under its id,
   *  the meshes in node order, and the lights by kind in node order. */
  datatype ImportedScene = ImportedScene(
    camera: Helper.Camera,
    textures: seq<(RS.Uuid, LoadedImage)>,
    meshes: seq<LoadedMesh>,
    dirLights: seq<ImportedDirectional>,
    pointLights: seq<ImportedPoint>,
    spotLights: seq<ImportedSpot>)

  /** What the node loop needs besides the scene it builds. */
  datatype NodeContext = NodeContext(doc: Document, buffers: seq<seq<byte>>, textureIds: seq<RS.Uuid>, rotate: Helper.RotateVec)

  /** The scene with a light's filled slot appended to its kind's list. */
  function AddLights(s: ImportedScene, slots: LightSlots): ImportedScene {
    s.(dirLights := s.dirLights + (if slots.dir.Some? then [slots.dir.value] else []),
       pointLights := s.pointLights + (if slots.point.Some? then [slots.point.value] else []),
       spotLights := s.spotLights + (if slots.spot.Some? then [slots.spot.value] else []))
  }

  /** One node: its camera replaces the scene's, its mesh (which must
   *  exist) is appended, its light goes to its kind's list. The textures
   *  stay, and a node with none of the three changes nothing. */
  function NodeImported(ctx: NodeContext, s: ImportedScene, node: GltfNode): (r: Result<ImportedScene, Panic>)
    ensures r.Ok? ==> r.value.textures == s.textures
    ensures node.camera.None? && node.mesh.None? && node.light.None? ==> r == Ok(s)
    ensures node.mesh.Some? && node.mesh.value >= |ctx.doc.meshes| ==> r.Err?
  {
    var withCamera :=
      if node.camera.None? then Ok(s)
      else
        match LoadCamera(ctx.doc.cameras, node.camera.value, node)
        case Err(e) => Err(e)
        case Ok(c) => Ok(s.(camera := c));
    if withCamera.Err? then withCamera
    else
      var withMesh :=
        if node.mesh.None? then Ok(withCamera.value)
        else if node.mesh.value >= |ctx.doc.meshes| then Err(UnwrapNone)
        else
          match MeshLoaded(ctx.doc.meshes[node.mesh.value], node, ctx.buffers, ctx.doc.materials, ctx.textureIds)
          case Err(e) => Err(e)
          case Ok(m) => Ok(withCamera.value.(meshes := withCamera.value.meshes + [m]));
      if withMesh.Err? || node.light.None? then withMesh
      else
        match LoadLight(ctx.doc.lights, node.light.value, node, ctx.rotate)
        case Err(e) => Err(e)
        case Ok(slots) => Ok(AddLights(withMesh.value, slots))
  }

  function NodeStep(ctx: NodeContext): (ImportedScene, GltfNode) -> Result<ImportedScene, Panic> {
    (s: ImportedScene, node: GltfNode) => NodeImported(ctx, s, node)
  }

  /** One node, as the loop body does it. */
  method ImportNode(ctx: NodeContext, s: ImportedScene, node: GltfNode) returns (r: Result<ImportedScene, Panic>)
    ensures r == NodeImported(ctx, s, node)
  {
    var scene := s;
    if node.camera.Some? {
      var c := LoadCamera(ctx.doc.cameras, node.camera.value, node);
      if c.Err? {
        return Err(c.error);
      }
      scene := scene.(camera := c.value);
    }
    if node.mesh.Some? {
      if node.mesh.value >= |ctx.doc.meshes| {
        return Err(UnwrapNone);
      }
      var m := LoadMesh(ctx.doc.meshes[node.mesh.value], node, ctx.buffers, ctx.doc.materials, ctx.textureIds);
      if m.Err? {
        return Err(m.error);
      }
      scene := scene.(meshes := scene.meshes + [m.value]);
    }
    if node.light.Some? {
      var slots := LoadLight(ctx.doc.lights, node.light.value, node, ctx.rotate);
      if slots.Err? {
        return Err(slots.error);
      }
      scene := AddLights(scene, slots.value);
    }
    return Ok(scene);
  }

  /** The node loop of `load_gltf`. */
  method ImportNodes(ctx: NodeContext, s0: ImportedScene) returns (r: Result<ImportedScene, Panic>)
    ensures r == Run(ctx.doc.nodes, s0, NodeStep(ctx))
  {
    var nodes := ctx.doc.nodes;
    var step := NodeStep(ctx);
    var s := s0;
    for i := 0 to |nodes|
      invariant Run(nodes[..i], s0, step) == Ok(s)
    {
      RunNext(nodes, i, s0, step);
      assert step(s, nodes[i]) == NodeImported(ctx, s, nodes[i]);
      var next := ImportNode(ctx, s, nodes[i]);
      if next.Err? {
        RunStopped(nodes, i + 1, s0, step);
        return next;
      }
      s := next.value;
    }
    assert nodes[..|nodes|] == nodes;
    return Ok(s);
  }

  /** The camera the import starts from: the 16:9 default when the
   *  document has no camera, the scene default otherwise. */
  function StartCamera(cameraCount: nat): Helper.Camera {
    if cameraCount == 0 then IMPORT_DEFAULT_CAMERA else Helper.DEFAULT_CAMERA
  }

  /** `load_gltf`, as a function of the parsed document (`None` when it
   *  does not parse), the outside world, how a quaternion turns a vector,
   *  and the fresh id each texture gets. */
  function GltfLoaded(doc: Option<Document>, env: Env, rotate: Helper.RotateVec, ids: nat -> RS.Uuid)
    : (r: Result<ImportedScene, Failure>)
    ensures doc.None? ==> r == Err(LoadError(GltfParse))
    ensures r.Ok? ==> doc.Some? && |doc.value.cameras| <= 1
  {
    if doc.None? then Err(LoadError(GltfParse))
    else
      var d := doc.value;
      if |d.cameras| > 1 then Err(LoadError(MultipleCameras(AsU32(|d.cameras|))))
      else
        match Collect(d.buffers, BufferOf(d.blob, env))
        case Err(e) => Err(e)
        case Ok(buffers) =>
          match Collect(d.textures, TextureOf(buffers, LinearSet(d.materials), env))
          case Err(p) => Err(Panicked(p))
          case Ok(images) =>
            var textureIds := FreshIds(|images|, ids);
            var s0 := ImportedScene(StartCamera(|d.cameras|), Zip(textureIds, images), [], [], [], []);
            match Run(d.nodes, s0, NodeStep(NodeContext(d, buffers, textureIds, rotate)))
            case Err(p) => Err(Panicked(p))
            case Ok(s) => Ok(s)
  }

  /** The linear textures as a set. */
  function LinearSet(materials: seq<GltfMaterial>): set<nat> {
    set i, t | 0 <= i < |materials| && t in TexturesOf(materials[i]) && LinearUse(materials[i], t) :: t
  }

  /** The textures a material refers to. */
  function TexturesOf(m: GltfMaterial): set<nat> {
    (if m.normalTexture.Some? then {m.normalTexture.value} else {})
    + (if m.occlusionTexture.Some? then {m.occlusionTexture.value} else {})
    + (if m.metallicRoughnessTexture.Some? then {m.metallicRoughnessTexture.value} else {})
  }

  /** The first `n` fresh ids (`Uuid::new_v4`), in the order drawn. */
  function FreshIds(n: nat, ids: nat -> RS.Uuid): (r: seq<RS.Uuid>)
    ensures |r| == n && forall i :: 0 <= i < n ==> r[i] == ids(i)
  {
    seq(n, i requires 0 <= i < n => ids(i))
  }

  function Zip<A, B>(xs: seq<A>, ys: seq<B>): (r: seq<(A, B)>)
    requires |xs| == |ys|
    ensures |r| == |xs| && forall i :: 0 <= i < |xs| ==> r[i] == (xs[i], ys[i])
  {
    seq(|xs|, i requires 0 <= i < |xs| => (xs[i], ys[i]))
  }

  /** `load_gltf`, step by step. */
  method LoadGltf(doc: Option<Document>, env: Env, rotate: Helper.RotateVec, ids: nat -> RS.Uuid)
      returns (r: Result<ImportedScene, Failure>)
    ensures r == GltfLoaded(doc, env, rotate, ids)
  {
    if doc.None? {
      return Err(LoadError(GltfParse));
    }
    var d := doc.value;
    if |d.cameras| > 1 {
      return Err(LoadError(MultipleCameras(AsU32(|d.cameras|))));
    }
    var camera := StartCamera(|d.cameras|);
    var linear := LinearTextures(d.materials);
    assert linear == LinearSet(d.materials);
    var buffers := LoadBuffersData(d.buffers, d.blob, env);
    if buffers.Err? {
      return Err(buffers.error);
    }
    var images := LoadTextures(d.textures, buffers.value, linear, env);
    if images.Err? {
      return Err(Panicked(images.error));
    }
    var textureIds := FreshIds(|images.value|, ids);
    var s0 := ImportedScene(camera, Zip(textureIds, images.value), [], [], [], []);
    var scene := ImportNodes(NodeContext(d, buffers.value, textureIds, rotate), s0);
    if scene.Err? {
      return Err(Panicked(scene.error));
    }
    return Ok(scene.value);
  }

  // ---------------------------------------------------------------------
  // What an import produces.

  /** The type of the light a node names, when it names one that exists. */
  function NodeLightType(lights: seq<PunctualLight>, node: GltfNode): Option<LightType> {
    if node.light.Some? && node.light.value < |lights| then lights[node.light.value].type_ else None
  }

  /** How many of the nodes name a light of the given type. */
  function LightCount(lights: seq<PunctualLight>, nodes: seq<GltfNode>, k: LightType): nat
    decreases |nodes|
  {
    if |nodes| == 0 then 0
    else LightCount(lights, nodes[..|nodes| - 1], k) + (if NodeLightType(lights, nodes[|nodes| - 1]) == Some(k) then 1 else 0)
  }

  /** How many of the nodes carry a mesh. */
  function MeshCount(nodes: seq<GltfNode>): nat
    decreases |nodes|
  {
    if |nodes| == 0 then 0 else MeshCount(nodes[..|nodes| - 1]) + (if nodes[|nodes| - 1].mesh.Some? then 1 else 0)
  }

  /** The node's camera, if it has one, replaces the scene's; nothing
   *  else touches the camera or the textures. */
  lemma NodeCamera(ctx: NodeContext, s: ImportedScene, node: GltfNode)
    requires NodeImported(ctx, s, node).Ok?
    ensures var t := NodeImported(ctx, s, node).value;
      && t.textures == s.textures
      && (node.camera.None? ==> t.camera == s.camera)
      && (node.camera.Some? ==> LoadCamera(ctx.doc.cameras, node.camera.value, node) == Ok(t.camera))
  {
  }

  /** The node's mesh adds one mesh; its light adds one light, to its own
   *  kind's list. */
  lemma NodeCounts(ctx: NodeContext, s: ImportedScene, node: GltfNode)
    requires NodeImported(ctx, s, node).Ok?
    ensures var t := NodeImported(ctx, s, node).value;
      && |t.meshes| == |s.meshes| + (if node.mesh.Some? then 1 else 0)
      && |t.dirLights| == |s.dirLights| + (if NodeLightType(ctx.doc.lights, node) == Some(DirectionalType) then 1 else 0)
      && |t.pointLights| == |s.pointLights| + (if NodeLightType(ctx.doc.lights, node) == Some(PointType) then 1 else 0)
      && |t.spotLights| == |s.spotLights| + (if NodeLightType(ctx.doc.lights, node) == Some(SpotType) then 1 else 0)
  {
  }

  /** The index of the last node with a camera: no node after it has
   *  one, and there is none exactly when no node has a camera. */
  function LastCameraNode(nodes: seq<GltfNode>): (r: Option<nat>)
    ensures r.None? <==> forall i :: 0 <= i < |nodes| ==> nodes[i].camera.None?
    ensures r.Some? ==> r.value < |nodes| && nodes[r.value].camera.Some?
                        && forall j :: r.value < j < |nodes| ==> nodes[j].camera.None?
    decreases |nodes|
  {
    if |nodes| == 0 then None
    else if nodes[|nodes| - 1].camera.Some? then Some(|nodes| - 1)
    else
      var front := nodes[..|nodes| - 1];
      assert forall i :: 0 <= i < |front| ==> front[i] == nodes[i];
      LastCameraNode(front)
  }

  /** Over the whole node loop the scene's camera is that of the last node
   *  with a camera, or the starting one when none has; the textures stay. */
  lemma {:induction false} NodesCamera(ctx: NodeContext, nodes: seq<GltfNode>, s0: ImportedScene)
    requires Run(nodes, s0, NodeStep(ctx)).Ok?
    ensures Run(nodes, s0, NodeStep(ctx)).value.textures == s0.textures
    ensures LastCameraNode(nodes).None? ==> Run(nodes, s0, NodeStep(ctx)).value.camera == s0.camera
    ensures LastCameraNode(nodes).Some? ==>
      var k := LastCameraNode(nodes).value;
      LoadCamera(ctx.doc.cameras, nodes[k].camera.value, nodes[k]) == Ok(Run(nodes, s0, NodeStep(ctx)).value.camera)
  {
    if |nodes| > 0 {
      var n := |nodes| - 1;
      var step := NodeStep(ctx);
      RunPrefixOk(nodes, n, s0, step);
      NodesCamera(ctx, nodes[..n], s0);
      var before := Run(nodes[..n], s0, step).value;
      assert step(before, nodes[n]) == NodeImported(ctx, before, nodes[n]);
      NodeCamera(ctx, before, nodes[n]);
    }
  }

  /** Over the whole node loop every mesh node adds a mesh and every light
   *  node a light of its kind. */
  lemma {:induction false} NodesCounts(ctx: NodeContext, nodes: seq<GltfNode>, s0: ImportedScene)
    requires Run(nodes, s0, NodeStep(ctx)).Ok?
    ensures var t := Run(nodes, s0, NodeStep(ctx)).value;
      && |t.meshes| == |s0.meshes| + MeshCount(nodes)
      && |t.dirLights| == |s0.dirLights| + LightCount(ctx.doc.lights, nodes, DirectionalType)
      && |t.pointLights| == |s0.pointLights| + LightCount(ctx.doc.lights, nodes, PointType)
      && |t.spotLights| == |s0.spotLights| + LightCount(ctx.doc.lights, nodes, SpotType)
  {
    if |nodes| > 0 {
      var n := |nodes| - 1;
      var step := NodeStep(ctx);
      RunPrefixOk(nodes, n, s0, step);
      NodesCounts(ctx, nodes[..n], s0);
      var before := Run(nodes[..n], s0, step).value;
      assert step(before, nodes[n]) == NodeImported(ctx, before, nodes[n]);
      NodeCounts(ctx, before, nodes[n]);
    }
  }

  /** A document with more than one camera is refused with their count
   *  (as a `u32`); one that loads had at most one camera. */
  lemma CameraCountRule(doc: Option<Document>, env: Env, rotate: Helper.RotateVec, ids: nat -> RS.Uuid)
    ensures doc.Some? && |doc.value.cameras| > 1 ==>
      GltfLoaded(doc, env, rotate, ids) == Err(LoadError(MultipleCameras(AsU32(|doc.value.cameras|))))
    ensures GltfLoaded(doc, env, rotate, ids).Ok? ==> doc.Some? && |doc.value.cameras| <= 1
  {
  }

  /** The scene a successful import builds: one texture per document
   *  texture under its fresh id; the camera of the last camera node, else
   *  the 16:9 default when the document has no camera; one mesh per mesh
   *  node; one light per light node, by kind. */
  lemma ImportedSceneShape(doc: Option<Document>, env: Env, rotate: Helper.RotateVec, ids: nat -> RS.Uuid)
    requires GltfLoaded(doc, env, rotate, ids).Ok?
    ensures doc.Some?
    ensures |GltfLoaded(doc, env, rotate, ids).value.textures| == |doc.value.textures|
    ensures forall i :: 0 <= i < |doc.value.textures| ==> GltfLoaded(doc, env, rotate, ids).value.textures[i].0 == ids(i)
    ensures LastCameraNode(doc.value.nodes).None? ==>
      GltfLoaded(doc, env, rotate, ids).value.camera == StartCamera(|doc.value.cameras|)
    ensures LastCameraNode(doc.value.nodes).Some? ==>
      var node := doc.value.nodes[LastCameraNode(doc.value.nodes).value];
      LoadCamera(doc.value.cameras, node.camera.value, node) == Ok(GltfLoaded(doc, env, rotate, ids).value.camera)
    ensures |GltfLoaded(doc, env, rotate, ids).value.meshes| == MeshCount(doc.value.nodes)
    ensures |GltfLoaded(doc, env, rotate, ids).value.dirLights| == LightCount(doc.value.lights, doc.value.nodes, DirectionalType)
    ensures |GltfLoaded(doc, env, rotate, ids).value.pointLights| == LightCount(doc.value.lights, doc.value.nodes, PointType)
    ensures |GltfLoaded(doc, env, rotate, ids).value.spotLights| == LightCount(doc.value.lights, doc.value.nodes, SpotType)
  {
    var d := doc.value;
    var bufs := Collect(d.buffers, BufferOf(d.blob, env));
    assert bufs.Ok?;
    var buffers := bufs.value;
    var f := TextureOf(buffers, LinearSet(d.materials), env);
    var imgs := Collect(d.textures, f);
    assert imgs.Ok?;
    var images := imgs.value;
    CollectCases(d.textures, f);
    var textureIds := FreshIds(|images|, ids);
    var s0 := ImportedScene(StartCamera(|d.cameras|), Zip(textureIds, images), [], [], [], []);
    var ctx := NodeContext(d, buffers, textureIds, rotate);
    var run := Run(d.nodes, s0, NodeStep(ctx));
    assert run.Ok? && GltfLoaded(doc, env, rotate, ids) == Ok(run.value);
    NodesCamera(ctx, d.nodes, s0);
    NodesCounts(ctx, d.nodes, s0);
  }
}
