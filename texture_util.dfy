/** Texture creation and texture-format names: the dimension a texture is
 *  given from its extent, and the WGSL names of storage and sampled texel
 *  formats. The descriptor stands for the texture the device creates. */
module TextureUtil {
  import opened Common

  /** The texel formats the renderer names, plus the two it creates images
   *  and depth targets with; wgpu's other formats behave like `Other`. */
  datatype TextureFormat =
    | R32Uint | R32Sint | R32Float
    | Rgba8Unorm | Rgba8Snorm | Rgba8Uint | Rgba8Sint | Bgra8Unorm
    | Rg32Uint | Rg32Sint | Rg32Float
    | Rgba16Uint | Rgba16Sint | Rgba16Float
    | Rgba32Uint | Rgba32Sint | Rgba32Float
    | Rgba8UnormSrgb | Depth32Float
    | Other

  datatype TextureDimension = D1 | D2 | D3

  datatype UVec3 = UVec3(x: nat, y: nat, z: nat)

  /** A texture descriptor: extent, mip and sample counts, dimension,
   *  format, usage bits and the formats views may take. */
  datatype TextureDescriptor = TextureDescriptor(
    width: nat, height: nat, depthOrArrayLayers: nat,
    mipLevelCount: nat, sampleCount: nat,
    dimension: TextureDimension, format: TextureFormat, usage: set<nat>,
    viewFormats: seq<TextureFormat>)

  /** The dimension rule shared by both `create_texture`s. */
  function DimensionOf(dim: UVec3): (d: TextureDimension)
    ensures d == D1 <==> dim.z == 1 && dim.y == 1
    ensures d == D2 <==> dim.z == 1 && dim.y != 1
    ensures d == D3 <==> dim.z != 1
  {
    if dim.z == 1 && dim.y == 1 then D1
    else if dim.z == 1 then D2
    else D3
  }

  /** `util::create_texture`: one mip level, one sample, and the format as
   *  its only view format. */
  function CreateTexture(dim: UVec3, format: TextureFormat, usage: set<nat>): (t: TextureDescriptor)
    ensures (t.width, t.height, t.depthOrArrayLayers) == (dim.x, dim.y, dim.z)
    ensures t.mipLevelCount == 1 && t.sampleCount == 1
    ensures t.dimension == DimensionOf(dim)
    ensures t.format == format && t.usage == usage && t.viewFormats == [format]
  {
    TextureDescriptor(dim.x, dim.y, dim.z, 1, 1, DimensionOf(dim), format, usage, [format])
  }

  /** A default view of a texture. */
  datatype TextureView = TextureView(of: TextureDescriptor)

  /** `utils::create_texture`: the same texture, returned with a default
   *  view of that very texture. */
  function CreateTextureWithView(dim: UVec3, format: TextureFormat, usage: set<nat>): (r: (TextureDescriptor, TextureView))
    ensures r.0 == CreateTexture(dim, format, usage)
    ensures r.1.of == r.0
  {
    var t := CreateTexture(dim, format, usage);
    (t, TextureView(t))
  }

  /** A layer count other than 1 always makes a 3D texture, whatever the
   *  height; an extent of height and depth 1 is a 1D texture. */
  lemma DimensionCases(x: nat, y: nat, z: nat)
    ensures z != 1 ==> CreateTexture(UVec3(x, y, z), Other, {}).dimension == D3
    ensures CreateTextureWithView(UVec3(x, 1, 1), Other, {}).1.of.dimension == D1
    ensures y != 1 ==> CreateTexture(UVec3(x, y, 1), Other, {}).dimension == D2
  {
  }

  /** `texel_format_to_storage`: the WGSL storage-texture name of a format;
   *  any format outside the table panics. */
  function StorageName(format: TextureFormat): (r: Result<string, Panic>)
    ensures r.Err? <==> format in {Rgba8UnormSrgb, Depth32Float, Other}
    ensures r.Err? ==> r.error == ExplicitPanic
  {
    match format
    case R32Uint => Ok("r32uint")
    case R32Sint => Ok("r32sint")
    case R32Float => Ok("r32float")
    case Rgba8Unorm => Ok("rgba8unorm")
    case Rgba8Snorm => Ok("rgba8snorm")
    case Rgba8Uint => Ok("rgba8uint")
    case Rgba8Sint => Ok("rgba8sint")
    case Bgra8Unorm => Ok("bgra8unorm")
    case Rg32Uint => Ok("rg32uint")
    case Rg32Sint => Ok("rg32sint")
    case Rg32Float => Ok("rg32float")
    case Rgba16Uint => Ok("rgba16uint")
    case Rgba16Sint => Ok("rgba16sint")
    case Rgba16Float => Ok("rgba16float")
    case Rgba32Uint => Ok("rgba32uint")
    case Rgba32Sint => Ok("rgba32sint")
    case Rgba32Float => Ok("rgba32float")
    case _ => Err(ExplicitPanic)
  }

  /** The format a WGSL storage name stands for. */
  function FormatOfStorageName(name: string): Option<TextureFormat> {
    if name == "r32uint" then Some(R32Uint)
    else if name == "r32sint" then Some(R32Sint)
    else if name == "r32float" then Some(R32Float)
    else if name == "rgba8unorm" then Some(Rgba8Unorm)
    else if name == "rgba8snorm" then Some(Rgba8Snorm)
    else if name == "rgba8uint" then Some(Rgba8Uint)
    else if name == "rgba8sint" then Some(Rgba8Sint)
    else if name == "bgra8unorm" then Some(Bgra8Unorm)
    else if name == "rg32uint" then Some(Rg32Uint)
    else if name == "rg32sint" then Some(Rg32Sint)
    else if name == "rg32float" then Some(Rg32Float)
    else if name == "rgba16uint" then Some(Rgba16Uint)
    else if name == "rgba16sint" then Some(Rgba16Sint)
    else if name == "rgba16float" then Some(Rgba16Float)
    else if name == "rgba32uint" then Some(Rgba32Uint)
    else if name == "rgba32sint" then Some(Rgba32Sint)
    else if name == "rgba32float" then Some(Rgba32Float)
    else None
  }

  /** Every name in the table reads back as its own format, so the
   *  seventeen names are pairwise distinct. */
  lemma StorageNamesRoundTrip(format: TextureFormat)
    requires StorageName(format).Ok?
    ensures FormatOfStorageName(StorageName(format).value) == Some(format)
  {
  }

  lemma StorageNamesDistinct(f: TextureFormat, g: TextureFormat)
    requires StorageName(f).Ok? && StorageName(g).Ok? && f != g
    ensures StorageName(f).value != StorageName(g).value
  {
    StorageNamesRoundTrip(f);
    StorageNamesRoundTrip(g);
  }

  /** wgpu's sample type of a format. */
  datatype TextureSampleType = Float(filterable: bool) | Depth | Sint | Uint

  /** `texel_format_to_sampled`, given the sample type wgpu reports for the
   *  format (`None` when the format has none for the aspect, which panics
   *  on `unwrap`). */
  function SampledName(sampleType: Option<TextureSampleType>): (r: Result<string, Panic>)
    ensures r.Err? <==> sampleType.None?
    ensures r.Err? ==> r.error == UnwrapNone
    ensures r.Ok? ==> r.value in {"f32", "depth", "i32", "u32"}
    ensures sampleType.Some? && sampleType.value.Float? ==> r == Ok("f32")
    ensures sampleType == Some(Depth) ==> r == Ok("depth")
    ensures sampleType == Some(Sint) ==> r == Ok("i32")
    ensures sampleType == Some(Uint) ==> r == Ok("u32")
  {
    match sampleType
    case None => Err(UnwrapNone)
    case Some(t) =>
      match t
      case Float(_) => Ok("f32")
      case Depth => Ok("depth")
      case Sint => Ok("i32")
      case Uint => Ok("u32")
  }

  /** Two sample types get the same WGSL name exactly when they are the
   *  same kind: filterable and non-filterable floats share `f32`. */
  lemma SampledNamesDistinct(a: TextureSampleType, b: TextureSampleType)
    ensures SampledName(Some(a)) == SampledName(Some(b)) <==> a == b || (a.Float? && b.Float?)
  {
  }
}
