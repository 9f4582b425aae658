/** `StandardMaterial` of the `core-dep` crate: its uniform is appended to
 *  the registry entry of the material's own type, while `bind` reads the
 *  entry of the uniform's type. Nothing ever fills that entry, so as
 *  written the material never binds; `BindFixed` reads the entry that
 *  `push_uniform` fills. */
module LegacyMaterial {
  import opened Common
  import opened Buffers
  import opened Color

  /** The registry keys of `StandardMaterial` and `StandardMaterialUniform`. */
  const MATERIAL_KEY: TypeKey := "StandardMaterial"
  const UNIFORM_KEY: TypeKey := "StandardMaterialUniform"

  /** `tex_base_color` is a shared texture; only its presence matters here. */
  datatype StandardMaterial = StandardMaterial(baseColor: Srgba, texBaseColor: Option<nat>, metallic: real, roughness: real)

  datatype MaterialUniform = MaterialUniform(baseColor: LinearRgba, metallic: real, roughness: real, padding: nat)

  /** `bytemuck` view of the uniform. */
  type Encode = MaterialUniform -> seq<byte>

  /** The uniform `push_uniform` builds: linearised colour (alpha
   *  included), the two factors copied, zero padding. */
  function UniformOf(m: StandardMaterial, pow: Pow): (u: MaterialUniform)
    ensures u.baseColor == ToLinearRgba(m.baseColor, pow)
    ensures u.metallic == m.metallic && u.roughness == m.roughness && u.padding == 0
  {
    MaterialUniform(ToLinearRgba(m.baseColor, pow), m.metallic, m.roughness, 0)
  }

  /** `push_uniform`: appends the uniform's bytes under the material's own
   *  key and returns their offset; panics if that key holds a storage
   *  buffer. */
  method PushUniform(m: StandardMaterial, buffers: SceneBuffers, pow: Pow, encode: Encode) returns (r: Result<nat, Panic>)
    modifies buffers
    ensures var p := PushedUniform(old(buffers.value), MATERIAL_KEY, encode(UniformOf(m, pow)));
            (r.Err? <==> p.Err?)
            && (r.Err? ==> r.error == UnwrapNone && buffers.value == old(buffers.value))
            && (r.Ok? ==> r.value == p.value.1 && buffers.value == p.value.0)
  {
    var found := buffers.GetOrInsertUniform(MATERIAL_KEY);
    if !found {
      return Err(UnwrapNone);
    }
    var offset := buffers.PushUniform(MATERIAL_KEY, encode(UniformOf(m, pow)));
    r := Ok(offset);
  }

  /** `bind` as written: the device buffer under `StandardMaterialUniform`,
   *  if that entry is a uniform buffer that has been allocated. */
  function Bind(registry: map<TypeKey, GpuBuffer>): (b: Option<DeviceBuffer>)
    ensures b.Some? <==> UniformIn(registry, UNIFORM_KEY).Some? && UniformIn(registry, UNIFORM_KEY).value.gpu.Some?
    ensures b.Some? ==> b == UniformIn(registry, UNIFORM_KEY).value.gpu
  {
    match UniformIn(registry, UNIFORM_KEY)
    case None => None
    case Some(u) => u.gpu
  }

  /** `bind` reading the entry `push_uniform` fills. */
  function BindFixed(registry: map<TypeKey, GpuBuffer>): (b: Option<DeviceBuffer>)
    ensures b.Some? <==> UniformIn(registry, MATERIAL_KEY).Some? && UniformIn(registry, MATERIAL_KEY).value.gpu.Some?
    ensures b.Some? ==> b == UniformIn(registry, MATERIAL_KEY).value.gpu
  {
    match UniformIn(registry, MATERIAL_KEY)
    case None => None
    case Some(u) => u.gpu
  }

  /** As written: pushing a material and writing the registry leaves `bind`
   *  with nothing, whenever no entry exists under the uniform's type. */
  lemma BindMissesPushedUniform(registry: map<TypeKey, GpuBuffer>, data: seq<byte>)
    requires UNIFORM_KEY !in registry
    requires PushedUniform(registry, MATERIAL_KEY, data).Ok?
    ensures Bind(WrittenAll(PushedUniform(registry, MATERIAL_KEY, data).value.0)) == None
  {
    var after := PushedUniform(registry, MATERIAL_KEY, data).value.0;
    assert UNIFORM_KEY !in after;
  }

  /** Corrected: after a push and a write, the bound buffer holds the
   *  pushed bytes at the returned offset (while the entry is below 4 GiB,
   *  where the `u32` offset is exact). */
  lemma BindFixedSeesPushedUniform(registry: map<TypeKey, GpuBuffer>, data: seq<byte>)
    requires PushedUniform(registry, MATERIAL_KEY, data).Ok?
    requires UniformIn(registry, MATERIAL_KEY).Some? ==> |UniformIn(registry, MATERIAL_KEY).value.raw| < 0x1_0000_0000
    ensures var p := PushedUniform(registry, MATERIAL_KEY, data).value;
            var b := BindFixed(WrittenAll(p.0));
            b.Some? && p.1 + |data| <= |b.value.contents| && b.value.contents[p.1..p.1 + |data|] == data
  {
    var p := PushedUniform(registry, MATERIAL_KEY, data).value;
    var s := if MATERIAL_KEY in registry then registry[MATERIAL_KEY].u else DefaultUniform();
    assert p.0[MATERIAL_KEY] == UniformEntry(Pushed(s, data));
    var w := WrittenAll(p.0);
    assert w[MATERIAL_KEY] == UniformEntry(StagingWritten(Pushed(s, data)));
    var raw := s.raw + data;
    assert StagingWritten(Pushed(s, data)).gpu == Some(DeviceBuffer(raw, s.usage));
    assert p.1 == |s.raw|;
    assert raw[|s.raw|..|s.raw| + |data|] == data;
  }
}
