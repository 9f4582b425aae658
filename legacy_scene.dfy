/** `GpuScene` of the `core-dep` crate: the device-side copy of a scene.
 *  The lights go into a storage buffer and the camera into a uniform
 *  buffer, each registered under its GPU type; `write_scene` uploads the
 *  registry and binds the two groups.
 *
 *  As written, `write_scene` asks for the lights with `get_uniform`, which
 *  never finds a storage entry, so it returns before binding anything;
 *  `WriteSceneFixed` asks with `get_storage`.
 *
 *  Bind groups are modelled by the device buffer they bind; the matrix
 *  and colour conversions that produce a camera's or a light's bytes are
 *  parameters. */
module LegacyGpuScene {
  import opened Common
  import opened Buffers
  import opened Color
  import SceneComponent
  import opened LegacyResource
  import opened LegacyMaterial

  /** The registry keys of `GpuCamera` and `GpuDirectionalLight`. */
  const CAMERA_KEY: TypeKey := "GpuCamera"
  const LIGHT_KEY: TypeKey := "GpuDirectionalLight"

  datatype Camera = Camera(transform: SceneComponent.Transform, projection: SceneComponent.CameraProjection)
  datatype DirectionalLight = DirectionalLight(transform: SceneComponent.Transform, color: Srgba)
  datatype Light = Directional(light: DirectionalLight)

  datatype Scene = Scene(camera: Camera, lights: seq<Light>, meshes: seq<Mesh>,
                         textures: map<ResRef, Texture>, materials: map<ResRef, StandardMaterial>)

  /** The bytes of `GpuCamera::from(camera)` and
   *  `GpuDirectionalLight::from(light)`. */
  type CameraBytes = Camera -> seq<byte>
  type LightBytes = DirectionalLight -> seq<byte>

  /** A device mesh as far as the host sees it. */
  datatype GpuMesh = GpuMesh(vertexCount: nat, material: ResRef)

  /** `Mesh::clone_to_gpu`: the vertex count (as `u32`) and the material
   *  handle travel with the vertex buffer. */
  function MeshToGpu(m: Mesh): (g: GpuMesh)
    ensures g.vertexCount == AsU32(|m.vertices|) && g.material == m.material
  {
    GpuMesh(AsU32(|m.vertices|), m.material)
  }

  /** Each light's bytes, in scene order. */
  function LightsBytes(lights: seq<Light>, lightBytes: LightBytes): (r: seq<seq<byte>>)
    ensures |r| == |lights|
    ensures forall i :: 0 <= i < |lights| ==> r[i] == lightBytes(lights[i].light)
  {
    seq(|lights|, i requires 0 <= i < |lights| => lightBytes(lights[i].light))
  }

  /** The registry `GpuScene::new` builds: the lights as one storage buffer
   *  holding every light's bytes back to back, the camera as a uniform
   *  buffer holding its bytes; nothing is on the device yet. */
  function NewRegistry(scene: Scene, cameraBytes: CameraBytes, lightBytes: LightBytes): map<TypeKey, GpuBuffer> {
    map[LIGHT_KEY := StorageEntry(DefaultStorage().(raw := Flatten(LightsBytes(scene.lights, lightBytes)),
                                                    changed := |scene.lights| > 0)),
        CAMERA_KEY := UniformEntry(Pushed(DefaultUniform(), cameraBytes(scene.camera)))]
  }

  /** `write_scene`'s choice of buffers once the registry is written, as
   *  written: both looked up with `get_uniform`. `None` means it returns
   *  early; otherwise `binding().unwrap()` on each. */
  function SceneBindings(registry: map<TypeKey, GpuBuffer>): (r: Option<Result<(DeviceBuffer, DeviceBuffer), Panic>>)
    ensures r.Some? <==> UniformIn(registry, CAMERA_KEY).Some? && UniformIn(registry, LIGHT_KEY).Some?
  {
    match (UniformIn(registry, CAMERA_KEY), UniformIn(registry, LIGHT_KEY))
    case (Some(c), Some(l)) =>
      if c.gpu.None? || l.gpu.None? then Some(Err(UnwrapNone)) else Some(Ok((c.gpu.value, l.gpu.value)))
    case _ => None
  }

  /** The same choice with the lights looked up as the storage buffer they
   *  are. */
  function SceneBindingsFixed(registry: map<TypeKey, GpuBuffer>): (r: Option<Result<(DeviceBuffer, DeviceBuffer), Panic>>)
    ensures r.Some? <==> UniformIn(registry, CAMERA_KEY).Some? && StorageIn(registry, LIGHT_KEY).Some?
  {
    match (UniformIn(registry, CAMERA_KEY), StorageIn(registry, LIGHT_KEY))
    case (Some(c), Some(l)) =>
      if c.gpu.None? || l.gpu.None? then Some(Err(UnwrapNone)) else Some(Ok((c.gpu.value, l.gpu.value)))
    case _ => None
  }

  class GpuScene {
    var clearColor: LinearRgba
    var buffers: SceneBuffers
    /** `b_camera` / `b_lights`: the buffer each group binds, once bound. */
    var cameraGroup: Option<DeviceBuffer>
    var lightsGroup: Option<DeviceBuffer>
    var meshes: seq<GpuMesh>
    var textures: map<ResRef, GpuTexture>
    var materials: map<ResRef, StandardMaterial>

    /** `GpuScene::new`. */
    constructor (scene: Scene, clearColor: Srgba, pow: Pow, cameraBytes: CameraBytes, lightBytes: LightBytes)
      ensures fresh(buffers)
      ensures buffers.value == NewRegistry(scene, cameraBytes, lightBytes)
      ensures cameraGroup.None? && lightsGroup.None?
      ensures this.clearColor == ToLinearRgba(clearColor, pow)
      ensures |meshes| == |scene.meshes| && forall i :: 0 <= i < |meshes| ==> meshes[i] == MeshToGpu(scene.meshes[i])
      ensures textures.Keys == scene.textures.Keys
      ensures forall k :: k in textures ==> textures[k] == CloneToGpu(scene.textures[k])
      ensures materials == scene.materials
    {
      var lights := new StagingBuffer.Storage();
      for i := 0 to |scene.lights|
        invariant lights.State() == DefaultStorage().(raw := Flatten(LightsBytes(scene.lights[..i], lightBytes)),
                                                      changed := i > 0)
      {
        var l := scene.lights[i].light;
        ghost var before := LightsBytes(scene.lights[..i], lightBytes);
        assert LightsBytes(scene.lights[..i + 1], lightBytes) == before + [lightBytes(l)];
        FlattenAppend(before, [lightBytes(l)]);
        assert Flatten([lightBytes(l)]) == lightBytes(l) + Flatten([]);
        var _ := lights.Push(lightBytes(l));
      }
      assert scene.lights[..|scene.lights|] == scene.lights;
      var camera := new StagingBuffer.Uniform();
      var _ := camera.Push(cameraBytes(scene.camera));
      var registry := new SceneBuffers();
      registry.Insert(LIGHT_KEY, StorageEntry(lights.State()));
      registry.Insert(CAMERA_KEY, UniformEntry(camera.State()));
      this.clearColor := ToLinearRgba(clearColor, pow);
      buffers := registry;
      cameraGroup := None;
      lightsGroup := None;
      meshes := seq(|scene.meshes|, i requires 0 <= i < |scene.meshes| => MeshToGpu(scene.meshes[i]));
      textures := map k | k in scene.textures :: CloneToGpu(scene.textures[k]);
      materials := scene.materials;
    }

    /** `write_scene` as written: uploads every buffer, then binds both
     *  groups only if both lookups succeed. */
    method WriteScene() returns (r: Result<(), Panic>)
      modifies this, buffers
      ensures buffers == old(buffers)
      ensures buffers.value == WrittenAll(old(buffers.value))
      ensures var b := SceneBindings(buffers.value);
              (b.None? ==> r.Ok? && cameraGroup == old(cameraGroup) && lightsGroup == old(lightsGroup))
              && (b.Some? && b.value.Err? ==> r == Err(b.value.error))
              && (b.Some? && b.value.Ok? ==> r.Ok? && cameraGroup == Some(b.value.value.0)
                                                   && lightsGroup == Some(b.value.value.1))
      ensures clearColor == old(clearColor) && meshes == old(meshes)
      ensures textures == old(textures) && materials == old(materials)
    {
      buffers.Write();
      var camera := buffers.GetUniform(CAMERA_KEY);
      var lights := buffers.GetUniform(LIGHT_KEY);
      if camera.None? || lights.None? {
        return Ok(());
      }
      if camera.value.gpu.None? || lights.value.gpu.None? {
        return Err(UnwrapNone);
      }
      cameraGroup := camera.value.gpu;
      lightsGroup := lights.value.gpu;
      r := Ok(());
    }

    /** `write_scene` with the lights looked up by `get_storage`. */
    method WriteSceneFixed() returns (r: Result<(), Panic>)
      modifies this, buffers
      ensures buffers == old(buffers)
      ensures buffers.value == WrittenAll(old(buffers.value))
      ensures var b := SceneBindingsFixed(buffers.value);
              (b.None? ==> r.Ok? && cameraGroup == old(cameraGroup) && lightsGroup == old(lightsGroup))
              && (b.Some? && b.value.Err? ==> r == Err(b.value.error))
              && (b.Some? && b.value.Ok? ==> r.Ok? && cameraGroup == Some(b.value.value.0)
                                                   && lightsGroup == Some(b.value.value.1))
      ensures clearColor == old(clearColor) && meshes == old(meshes)
      ensures textures == old(textures) && materials == old(materials)
    {
      buffers.Write();
      var camera := buffers.GetUniform(CAMERA_KEY);
      var lights := buffers.GetStorage(LIGHT_KEY);
      if camera.None? || lights.None? {
        return Ok(());
      }
      if camera.value.gpu.None? || lights.value.gpu.None? {
        return Err(UnwrapNone);
      }
      cameraGroup := camera.value.gpu;
      lightsGroup := lights.value.gpu;
      r := Ok(());
    }

    /** `update_camera`: the camera buffer is emptied and refilled with the
     *  current camera, so it holds exactly one camera's bytes; panics when
     *  there is no uniform buffer under the camera's type. */
    method UpdateCamera(scene: Scene, cameraBytes: CameraBytes) returns (r: Result<(), Panic>)
      modifies buffers
      ensures r.Err? <==> UniformIn(old(buffers.value), CAMERA_KEY).None?
      ensures r.Err? ==> r.error == UnwrapNone && buffers.value == old(buffers.value)
      ensures r.Ok? ==> buffers.value.Keys == old(buffers.value).Keys
      ensures r.Ok? ==> forall k :: k in buffers.value && k != CAMERA_KEY ==> buffers.value[k] == old(buffers.value)[k]
      ensures r.Ok? ==> UniformIn(buffers.value, CAMERA_KEY).Some?
                        && UniformIn(buffers.value, CAMERA_KEY).value.raw == cameraBytes(scene.camera)
                        && UniformIn(buffers.value, CAMERA_KEY).value.changed
                        && UniformIn(buffers.value, CAMERA_KEY).value.gpu == UniformIn(old(buffers.value), CAMERA_KEY).value.gpu
    {
      if buffers.GetUniform(CAMERA_KEY).None? {
        return Err(UnwrapNone);
      }
      buffers.ClearUniform(CAMERA_KEY);
      var _ := buffers.PushUniform(CAMERA_KEY, cameraBytes(scene.camera));
      r := Ok(());
    }
  }

  /** As written, `write_scene` never binds anything while the lights are
   *  registered as a storage buffer, which `new` does and nothing undoes:
   *  the early return is always taken. */
  lemma WriteSceneNeverBinds(registry: map<TypeKey, GpuBuffer>)
    requires StorageIn(registry, LIGHT_KEY).Some?
    ensures SceneBindings(WrittenAll(registry)).None?
  {
    assert WrittenAll(registry)[LIGHT_KEY] == registry[LIGHT_KEY].Written();
  }

  lemma NewRegistryHoldsLightsAsStorage(scene: Scene, cameraBytes: CameraBytes, lightBytes: LightBytes)
    ensures StorageIn(NewRegistry(scene, cameraBytes, lightBytes), LIGHT_KEY).Some?
    ensures UniformIn(NewRegistry(scene, cameraBytes, lightBytes), CAMERA_KEY).Some?
    ensures UNIFORM_KEY !in NewRegistry(scene, cameraBytes, lightBytes)
  {
  }

  /** Corrected: right after `new`, a scene with at least one light binds
   *  the camera group to the camera's bytes and the lights group to every
   *  light's bytes in scene order. */
  lemma WriteSceneFixedBindsBoth(scene: Scene, cameraBytes: CameraBytes, lightBytes: LightBytes)
    requires |scene.lights| > 0
    ensures var b := SceneBindingsFixed(WrittenAll(NewRegistry(scene, cameraBytes, lightBytes)));
            b.Some? && b.value.Ok?
            && b.value.value.0 == DeviceBuffer(cameraBytes(scene.camera), UniformUsage)
            && b.value.value.1 == DeviceBuffer(Flatten(LightsBytes(scene.lights, lightBytes)), StorageUsage)
  {
    var reg := NewRegistry(scene, cameraBytes, lightBytes);
    var w := WrittenAll(reg);
    assert w[CAMERA_KEY] == reg[CAMERA_KEY].Written();
    assert w[LIGHT_KEY] == reg[LIGHT_KEY].Written();
    assert [] + cameraBytes(scene.camera) == cameraBytes(scene.camera);
  }

  /** With the correction, a scene without lights panics instead: its
   *  storage buffer was never changed, so `write` allocates nothing and
   *  `binding().unwrap()` fails. */
  lemma WriteSceneFixedPanicsWithoutLights(scene: Scene, cameraBytes: CameraBytes, lightBytes: LightBytes)
    requires |scene.lights| == 0
    ensures SceneBindingsFixed(WrittenAll(NewRegistry(scene, cameraBytes, lightBytes))) == Some(Err(UnwrapNone))
  {
    var reg := NewRegistry(scene, cameraBytes, lightBytes);
    var w := WrittenAll(reg);
    assert w[LIGHT_KEY] == reg[LIGHT_KEY].Written();
    assert LightsBytes(scene.lights, lightBytes) == [];
  }

  /** Materials pushed into a fresh scene's registry are never bound by
   *  `bind` as written: no code fills the entry it reads. */
  lemma SceneMaterialsNeverBind(scene: Scene, cameraBytes: CameraBytes, lightBytes: LightBytes, data: seq<byte>)
    ensures var reg := NewRegistry(scene, cameraBytes, lightBytes);
            PushedUniform(reg, MATERIAL_KEY, data).Ok?
            && Bind(WrittenAll(PushedUniform(reg, MATERIAL_KEY, data).value.0)) == None
  {
    var reg := NewRegistry(scene, cameraBytes, lightBytes);
    BindMissesPushedUniform(reg, data);
  }
}
