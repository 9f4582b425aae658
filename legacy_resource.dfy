/** Resources of the `core-dep` crate: resource handles, the
 *  position/normal mesh with its material handle, and host textures with
 *  their device copies. Decoding PNG files is not modelled. */
module LegacyResource {
  import opened Common
  import opened ObjImport

  /** `ResRef(u128)`: equality and hashing are those of the id. */
  datatype ResRef = ResRef(id: nat)

  const U128_LIMIT: nat := 0x1_0000_0000_0000_0000_0000_0000_0000_0000

  function NewResRef(id: nat): (r: ResRef)
    requires id < U128_LIMIT
    ensures r.id == id
  {
    ResRef(id)
  }

  /** Two handles are the same resource exactly when their ids agree. */
  lemma ResRefEqualById(a: nat, b: nat)
    requires a < U128_LIMIT && b < U128_LIMIT
    ensures NewResRef(a) == NewResRef(b) <==> a == b
  {
  }

  datatype Vertex = Vertex(position: Vec3, normal: Vec3)
  datatype Mesh = Mesh(vertices: seq<Vertex>, material: ResRef)

  /** `Mesh::from_obj(path, material)`: the file's last group, as position
   *  and normal pairs, under the given material. */
  method MeshFromObj(obj: ObjData, material: ResRef) returns (r: Result<Mesh, Panic>)
    ensures r.Ok? <==> GroupsCorners(obj, AllGroups(obj.objects), false).Ok?
    ensures r.Err? ==> r.error in {Unreachable, IndexOutOfBounds}
    ensures r.Ok? ==> r.value.material == material
    ensures r.Ok? ==>
              var kept := LastOr([], GroupsCorners(obj, AllGroups(obj.objects), false).value);
              |r.value.vertices| == |kept|
              && forall i :: 0 <= i < |kept| ==>
                   r.value.vertices[i] == Vertex(kept[i].position, kept[i].normal)
  {
    var corners := SharedLastGroup(obj, false);
    if corners.Err? {
      return Err(corners.error);
    }
    var cs := corners.value;
    r := Ok(Mesh(seq(|cs|, i requires 0 <= i < |cs| => Vertex(cs[i].position, cs[i].normal)), material));
  }

  /** Groups before the file's last one never reach the mesh: when the last
   *  group has no polygons the mesh is empty, whatever came before. */
  lemma EarlierGroupsDiscarded(obj: ObjData)
    requires AllGroups(obj.objects) != []
    requires AllGroups(obj.objects)[|AllGroups(obj.objects)| - 1].polys == []
    requires GroupsCorners(obj, AllGroups(obj.objects), false).Ok?
    ensures LastOr([], GroupsCorners(obj, AllGroups(obj.objects), false).value) == []
  {
  }

  datatype Texture = Texture(width: nat, height: nat, raw: seq<byte>)

  datatype TextureFormat = Rgba8Unorm
  datatype TextureDimension = D1 | D2 | D3

  /** A device texture as far as its descriptor and initial data go. */
  datatype GpuTexture = GpuTexture(width: nat, height: nat, layers: nat, mipLevels: nat, samples: nat,
                                   dimension: TextureDimension, format: TextureFormat, contents: seq<byte>)

  /** `clone_to_gpu`: a single-layer, single-mip 2-D RGBA8 texture of the
   *  host size holding the host bytes. */
  function CloneToGpu(t: Texture): (g: GpuTexture)
    ensures g.width == t.width && g.height == t.height && g.contents == t.raw
    ensures g.layers == 1 && g.mipLevels == 1 && g.samples == 1
    ensures g.dimension == D2 && g.format == Rgba8Unorm
  {
    GpuTexture(t.width, t.height, 1, 1, 1, D2, Rgba8Unorm, t.raw)
  }
}
