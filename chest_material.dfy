/** `PbrMaterial` of the `chest` crate: its defaults, the uniform it
 *  transfers, the layout it registers under its type key, the uniform it
 *  appends each frame, and the bind group it builds for one instance.
 *
 *  The material's type key (`type_id().to_uuid()`) and the fallback
 *  texture key `DUMMY_2D_TEX` are values not part of this model and are
 *  passed in. */
module ChestMaterial {
  import opened Common
  import opened Buffers
  import Color
  import SR = SceneResource
  import RS = RenderScene
  import TextureUtil

  /** `TONY_MC_MAPFACE_LUT`, the key of the tone-mapping lookup texture. */
  const TONY_MC_MAPFACE_LUT: RS.Uuid := 7949841653150346834163056985041356

  datatype PbrMaterial = PbrMaterial(
    baseColor: Vec3,
    texBaseColor: Option<RS.Uuid>,
    texNormal: Option<RS.Uuid>,
    roughness: real,
    metallic: real,
    reflectance: real)

  /** `Default`: white, untextured, fully rough, not metallic. */
  const DEFAULT_MATERIAL: PbrMaterial := PbrMaterial(Vec3(1.0, 1.0, 1.0), None, None, 1.0, 0.0, 1.0)

  datatype PbrMaterialUniform = PbrMaterialUniform(baseColor: Vec3, roughness: real, metallic: real, ior: real)

  /** `transfer`: the base colour linearised; the reflectance is what the
   *  shader reads as `ior`. */
  function Transfer(m: PbrMaterial, pow: Color.Pow): (u: PbrMaterialUniform)
    ensures u.roughness == m.roughness && u.metallic == m.metallic && u.ior == m.reflectance
    ensures u.baseColor == SR.Linearised(m.baseColor, pow)
  {
    PbrMaterialUniform(SR.Linearised(m.baseColor, pow), m.roughness, m.metallic, m.reflectance)
  }

  /** The default material transfers to linear white, roughness 1,
   *  metallic 0 and `ior` 1, and a black base colour stays black. */
  lemma DefaultTransfer(pow: Color.Pow, m: PbrMaterial)
    requires Color.PowFixesOne(pow)
    ensures Transfer(DEFAULT_MATERIAL, pow) == PbrMaterialUniform(Vec3(1.0, 1.0, 1.0), 1.0, 0.0, 1.0)
    ensures m.baseColor == ZERO3 ==> Transfer(m, pow).baseColor == ZERO3
    ensures DEFAULT_MATERIAL.texBaseColor.None? && DEFAULT_MATERIAL.texNormal.None?
  {
    Color.CurvesFixEnds(pow);
  }

  // ---------------------------------------------------------------------
  // Layout

  const FLOAT_TEXTURE: TextureUtil.TextureSampleType := TextureUtil.Float(true)

  /** The six bindings: the uniform with a dynamic offset, the base colour
   *  and normal textures, a sampler, the 3D LUT and its sampler. */
  const PBR_LAYOUT: RS.Layout := RS.Layout([
    RS.LayoutEntry(0, RS.UniformBinding(true)),
    RS.LayoutEntry(1, RS.TextureBinding(FLOAT_TEXTURE, RS.ViewD2)),
    RS.LayoutEntry(2, RS.TextureBinding(FLOAT_TEXTURE, RS.ViewD2)),
    RS.LayoutEntry(3, RS.FilteringSampler),
    RS.LayoutEntry(4, RS.TextureBinding(FLOAT_TEXTURE, RS.ViewD3)),
    RS.LayoutEntry(5, RS.FilteringSampler)
  ])

  /** Binding i sits at index i; only binding 0 is a buffer, and only the
   *  LUT is three-dimensional. */
  lemma PbrLayoutShape()
    ensures |PBR_LAYOUT.entries| == 6
    ensures forall i :: 0 <= i < 6 ==> PBR_LAYOUT.entries[i].binding == i
    ensures forall i :: 0 <= i < 6 ==> (PBR_LAYOUT.entries[i].ty.UniformBinding? <==> i == 0)
    ensures forall i :: 0 <= i < 6 ==> (PBR_LAYOUT.entries[i].ty == RS.TextureBinding(FLOAT_TEXTURE, RS.ViewD3) <==> i == 4)
  {
  }

  /** `create_layout` as `sync` calls it: the layout under the type key. */
  function CreateLayout(pbrType: RS.Uuid): (f: PbrMaterial -> (RS.Uuid, RS.Layout))
    ensures forall m :: f(m) == (pbrType, PBR_LAYOUT)
  {
    m => (pbrType, PBR_LAYOUT)
  }

  /** A material added to the scene under its own type key has its layout
   *  afterwards, created once: a second material of the type leaves the
   *  layouts as they were. */
  lemma AddedMaterialHasLayout(a: RS.Assets<PbrMaterial>, u: RS.Uuid, s: RS.SceneData<PbrMaterial>, cv: RS.Conversions, pbrType: RS.Uuid)
    requires u in s.materials && s.materials[u].1 == pbrType
    ensures var r := RS.ApplyEvent(a, RS.Added(u, RS.Material), s, cv, CreateLayout(pbrType));
      && r.Ok?
      && pbrType in r.value.layouts
      && (pbrType !in a.layouts ==> r.value.layouts[pbrType] == PBR_LAYOUT)
      && (pbrType in a.layouts ==> r.value.layouts == a.layouts)
  {
  }

  // ---------------------------------------------------------------------
  // Per-frame uniforms

  /** `prepare`: the type's buffer must exist (`unwrap`); the uniform is
   *  appended and its byte offset returned. */
  function Prepared(buffers: map<RS.Uuid, BufferState>, pbrType: RS.Uuid, bytes: seq<byte>): (r: Result<(map<RS.Uuid, BufferState>, nat), Panic>)
    ensures r.Err? <==> pbrType !in buffers
    ensures r.Err? ==> r.error == UnwrapNone
    ensures r.Ok? ==> r.value.0.Keys == buffers.Keys
    ensures r.Ok? ==> forall k :: k in buffers && k != pbrType ==> r.value.0[k] == buffers[k]
    ensures r.Ok? ==> r.value.0[pbrType].raw == buffers[pbrType].raw + bytes && r.value.0[pbrType].changed
    ensures r.Ok? ==> r.value.0[pbrType].gpu == buffers[pbrType].gpu && r.value.0[pbrType].usage == buffers[pbrType].usage
    ensures r.Ok? ==> r.value.1 == AsU32(|buffers[pbrType].raw|)
  {
    if pbrType !in buffers then Err(UnwrapNone)
    else Ok((buffers[pbrType := Pushed(buffers[pbrType], bytes)], AsU32(|buffers[pbrType].raw|)))
  }

  /** Two materials prepared in a row get consecutive slots: the second
   *  offset is the first plus the first uniform's size. */
  lemma ConsecutivePrepares(buffers: map<RS.Uuid, BufferState>, pbrType: RS.Uuid, first: seq<byte>, second: seq<byte>)
    requires pbrType in buffers
    requires |buffers[pbrType].raw| + |first| < 0x1_0000_0000
    ensures var r1 := Prepared(buffers, pbrType, first).value;
      var r2 := Prepared(r1.0, pbrType, second).value;
      && r1.1 == |buffers[pbrType].raw|
      && r2.1 == r1.1 + |first|
      && r2.0[pbrType].raw == buffers[pbrType].raw + first + second
  {
  }

  /** The materials' buffers as `GpuAssets` holds them. */
  method Prepare(assets: RS.GpuAssets, m: PbrMaterial, pbrType: RS.Uuid, pow: Color.Pow, toBytes: PbrMaterialUniform -> seq<byte>)
      returns (r: Result<nat, Panic>)
    modifies assets
    ensures var p := Prepared(old(assets.buffers), pbrType, toBytes(Transfer(m, pow)));
      && (r.Ok? <==> p.Ok?)
      && (r.Err? ==> r.error == p.error && assets.buffers == old(assets.buffers))
      && (r.Ok? ==> r.value == p.value.1 && assets.buffers == p.value.0)
    ensures assets.textures == old(assets.textures) && assets.bindGroups == old(assets.bindGroups)
    ensures assets.layouts == old(assets.layouts)
  {
    if pbrType !in assets.buffers {
      return Err(UnwrapNone);
    }
    var b := assets.buffers[pbrType];
    r := Ok(AsU32(|b.raw|));
    assets.buffers := assets.buffers[pbrType := Pushed(b, toBytes(Transfer(m, pow)))];
  }

  // ---------------------------------------------------------------------
  // Bind group

  /** The texture a slot binds: the material's own, or the fallback. */
  function TextureKey(t: Option<RS.Uuid>, dummy: RS.Uuid): (k: RS.Uuid)
    ensures t.Some? ==> k == t.value
    ensures t.None? ==> k == dummy
  {
    if t.Some? then t.value else dummy
  }

  /** The bind group `create_bind_group` would build: none while the type
   *  has no buffer or its buffer was never written; a missing layout
   *  panics on `unwrap`; a missing texture panics on indexing. */
  function PbrBindGroup(a: RS.Assets<PbrMaterial>, m: PbrMaterial, pbrType: RS.Uuid, dummy: RS.Uuid)
    : (r: Result<Option<RS.BindGroup>, Panic>)
    ensures r == Ok(None) <==> pbrType !in a.buffers || a.buffers[pbrType].gpu.None?
    ensures r.Err? <==>
              pbrType in a.buffers && a.buffers[pbrType].gpu.Some?
              && (pbrType !in a.layouts || TextureKey(m.texBaseColor, dummy) !in a.textures
                  || TextureKey(m.texNormal, dummy) !in a.textures || TONY_MC_MAPFACE_LUT !in a.textures)
    ensures r.Err? ==> (r.error == UnwrapNone <==> pbrType !in a.layouts)
    ensures r.Ok? && r.value.Some? ==>
              var g := r.value.value;
              && g.layout == a.layouts[pbrType]
              && |g.entries| == |PBR_LAYOUT.entries|
              && g.entries[0] == RS.BufferResource(a.buffers[pbrType].gpu.value)
              && g.entries[1] == RS.TextureViewResource(a.textures[TextureKey(m.texBaseColor, dummy)])
              && g.entries[2] == RS.TextureViewResource(a.textures[TextureKey(m.texNormal, dummy)])
              && g.entries[4] == RS.TextureViewResource(a.textures[TONY_MC_MAPFACE_LUT])
              && g.entries[3] == g.entries[5] == RS.LinearSampler
  {
    if pbrType !in a.buffers || a.buffers[pbrType].gpu.None? then Ok(None)
    else if pbrType !in a.layouts then Err(UnwrapNone)
    else
      var base := TextureKey(m.texBaseColor, dummy);
      var normal := TextureKey(m.texNormal, dummy);
      if base !in a.textures || normal !in a.textures || TONY_MC_MAPFACE_LUT !in a.textures then Err(MissingKey)
      else
        Ok(Some(RS.BindGroup(a.layouts[pbrType], [
          RS.BufferResource(a.buffers[pbrType].gpu.value),
          RS.TextureViewResource(a.textures[base]),
          RS.TextureViewResource(a.textures[normal]),
          RS.LinearSampler,
          RS.TextureViewResource(a.textures[TONY_MC_MAPFACE_LUT]),
          RS.LinearSampler
        ])))
  }

  /** An untextured material binds the fallback texture in both slots. */
  lemma UntexturedUsesDummy(a: RS.Assets<PbrMaterial>, m: PbrMaterial, pbrType: RS.Uuid, dummy: RS.Uuid)
    requires m.texBaseColor.None? && m.texNormal.None?
    requires PbrBindGroup(a, m, pbrType, dummy).Ok? && PbrBindGroup(a, m, pbrType, dummy).value.Some?
    ensures var g := PbrBindGroup(a, m, pbrType, dummy).value.value;
      g.entries[1] == g.entries[2] == RS.TextureViewResource(a.textures[dummy])
  {
  }

  /** `create_bind_group`: the group goes under the instance's uuid, not
   *  the type's; nothing else changes. */
  method CreateBindGroup(assets: RS.GpuAssets, m: PbrMaterial, pbrType: RS.Uuid, uuid: RS.Uuid, dummy: RS.Uuid)
      returns (r: Result<(), Panic>)
    modifies assets
    ensures var g := PbrBindGroup(RS.Assets(old(assets.buffers), old(assets.textures), old(assets.bindGroups), old(assets.layouts), map[]), m, pbrType, dummy);
      && (r.Ok? <==> g.Ok?)
      && (r.Err? ==> r.error == g.error)
      && (g.Ok? && g.value.Some? ==> assets.bindGroups == old(assets.bindGroups)[uuid := g.value.value])
      && (!(g.Ok? && g.value.Some?) ==> assets.bindGroups == old(assets.bindGroups))
    ensures assets.buffers == old(assets.buffers) && assets.textures == old(assets.textures)
    ensures assets.layouts == old(assets.layouts)
  {
    if pbrType !in assets.buffers || assets.buffers[pbrType].gpu.None? {
      return Ok(());
    }
    var buffer := assets.buffers[pbrType].gpu.value;
    if pbrType !in assets.layouts {
      return Err(UnwrapNone);
    }
    var layout := assets.layouts[pbrType];
    var base := TextureKey(m.texBaseColor, dummy);
    if base !in assets.textures {
      return Err(MissingKey);
    }
    var normal := TextureKey(m.texNormal, dummy);
    if normal !in assets.textures {
      return Err(MissingKey);
    }
    if TONY_MC_MAPFACE_LUT !in assets.textures {
      return Err(MissingKey);
    }
    var group := RS.BindGroup(layout, [
      RS.BufferResource(buffer),
      RS.TextureViewResource(assets.textures[base]),
      RS.TextureViewResource(assets.textures[normal]),
      RS.LinearSampler,
      RS.TextureViewResource(assets.textures[TONY_MC_MAPFACE_LUT]),
      RS.LinearSampler
    ]);
    assets.bindGroups := assets.bindGroups[uuid := group];
    r := Ok(());
  }
}
