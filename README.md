# aurora host-side core, modelled in Dafny

aurora is a wgpu renderer written in Rust. Its lighting and filtering math
runs in WGSL shaders. The Rust side does bookkeeping that never depends on
what the GPU computes, and this project models that bookkeeping and proves
properties of it. It covers:

- **Shader defines.** The `ShaderDefEnum` derive turns CamelCase variants
  into UPPER_SNAKE define names, and a `def_name` attribute can override
  the name. The PBR, tonemapping, bloom and shadow nodes use these
  defines.
- **Staging buffers.** These are host byte vectors uploaded on `write`.
  - The renderer's `DynamicGpuBuffer` and the per-type uniform and storage
    buffers follow two different reallocation rules.
  - A registry keyed by type holds the per-type buffers.
  - The material and scene code reads that registry, sometimes under the
    wrong key.
- **Meshes.**
  - The attribute map is ordered by id. The vertex count is the shortest
    attribute, stride and offsets are prefix sums, and the vertex bytes
    are interleaved.
  - OBJ fan triangulation, in its five copies.
  - Tangent recomputation.
- **glTF import.**
  - Data URIs as in RFC 2397 and the loading of buffers.
  - The camera-count rule and the linear/sRGB choice for textures.
  - The MIME table, and how lights, materials, meshes and nodes are mapped.
- **Frame bookkeeping.**
  - The render flow's node queues.
  - `GpuScene::sync`: light partitioning, rebasing area-light vertex
    indices, and applying asset events.
  - The swap chain's ping-pong toggle.
  - The motion-vector node's one-frame delay.
- **Shadow and bloom scheduling.**
  - Shadow maps: array layer counts, the layer each light view renders to,
    and the order in which light-view offsets are recorded and read back.
  - The Poisson sample table, the cascade cameras and frustum slicing.
  - Bloom: the mip pyramid, its filter, blend factors and pass order.
- **Small tables.** Texture dimensions and format names, the cube-map
  faces, the sRGB transfer curve of IEC 61966-2-1, projection and transform
  helpers, and the viewer's key-driven camera controller.

How the code is modelled:

- Code that changes state in place is modelled as classes whose methods
  carry `modifies` clauses. Each method's `ensures` ties the new state to a
  specification function, and lemmas prove what the code promises about
  those functions.
- Panics (`unwrap`, `assert`, `panic!`, `todo!`, out-of-range indexing) are
  error values.
- Floats are reals. `powf`, reciprocals, matrix products and quaternion
  rotations are either parameters or symbolic `Matrix.Mat4` / `Matrix.Quat`
  terms.
- Random ids (`Uuid::new_v4`) and hash-map iteration order are parameters.

## Model

| member | source | states |
|---|---|---|
| ShaderDef.ToAsciiUpper | macros/src/shader_def_enum.rs:58 | the upper-cased character is never a lowercase letter, differs from the input exactly for lowercase letters, and is an uppercase letter exactly when the input was a letter |
| ShaderDef.DefName | macros/src/shader_def_enum.rs:51-62 | the name `variant_to_def` builds, character by character; it is empty exactly when the identifier is |
| ShaderDef.SnakeUpper | macros/src/shader_def_enum.rs:54-59 | the upper snake case reading of an identifier, left to right: empty exactly for an empty identifier, starting with the upper-cased first character |
| ShaderDef.VariantToDef | macros/src/shader_def_enum.rs:51-62 | the loop produces the define name of the identifier |
| ShaderDef.SeparatedAppend | macros/src/shader_def_enum.rs:54-59 | converting with a separator before every capital is compositional over concatenation |
| ShaderDef.DefNameIsSnakeUpper | macros/src/shader_def_enum.rs:54-59 | the character-by-character loop equals upper snake case: the first character upper-cased, then a separator before every later capital |
| ShaderDef.SeparatedFacts | macros/src/shader_def_enum.rs:54-59 | with a separator before every capital, the output grows by one per capital and holds no lowercase letter |
| ShaderDef.DefNameLength | macros/src/shader_def_enum.rs:54-59 | the define name has one character per input character plus one separator per capital after the first position |
| ShaderDef.NoLowercase | macros/src/shader_def_enum.rs:58 | no lowercase ASCII letter survives in a define name |
| ShaderDef.DefNameAppend | macros/src/shader_def_enum.rs:54-59 | two words convert independently; the second gets a separator when it starts with a capital and the first is not empty |
| ShaderDef.DefNameSnoc | macros/src/shader_def_enum.rs:54-59 | one more character appends a separator when it is a capital and output exists, then its upper-case form |
| ShaderDef.ExampleDefName | macros/src/shader_def_enum.rs:70 | ExampleDef becomes EXAMPLE_DEF |
| ShaderDef.OtherName | macros/src/shader_def_enum.rs:71 | Other becomes OTHER |
| ShaderDef.AcronymName | macros/src/shader_def_enum.rs:54-59 | consecutive capitals each get a separator: GGX becomes G_G_X |
| ShaderDef.FindDefName | macros/src/shader_def_enum.rs:14-18 | the attribute found is the FIRST def_name attribute, every one before it a single identifier; nothing is found exactly when every attribute is a single identifier other than def_name; the `get_ident().unwrap()` panics exactly when a non-identifier path comes before the first def_name attribute |
| ShaderDef.ArmForRule | macros/src/shader_def_enum.rs:12-34 | the first def_name attribute decides the arm wherever it stands: a name = value override is used verbatim and any other form panics; a non-identifier path before it panics first; a variant without def_name gets its converted identifier |
| ShaderDef.NoDefNameFound | macros/src/shader_def_enum.rs:14-18 | when no attribute is def_name, the search finds nothing and does not panic |
| ShaderDef.ArmsAllOk | macros/src/shader_def_enum.rs:12-34 | when no variant panics, the derive yields one arm per variant in declaration order |
| ShaderDef.ExpandShaderDefEnum | macros/src/shader_def_enum.rs:3-49 | succeeds exactly on an enum whose variants all convert, and then gives one arm per variant, in order |
| ShaderDef.ToDef | macros/src/shader_def_enum.rs:36-45 | to_def gives the arm's define for a declared variant, always with the value true |
| PbrShaderDefs.BlinnPhongName | chest/src/shader_defs.rs:6 | BlinnPhong becomes BLINN_PHONG |
| PbrShaderDefs.AnisotropicName | chest/src/shader_defs.rs:11 | Anisotropic becomes ANISOTROPIC |
| PbrShaderDefs.BeckmannName | chest/src/shader_defs.rs:5 | Beckmann becomes BECKMANN |
| PbrShaderDefs.LambertName | chest/src/shader_defs.rs:16 | Lambert becomes LAMBERT |
| PbrShaderDefs.BurleyName | chest/src/shader_defs.rs:17 | Burley becomes BURLEY |
| PbrShaderDefs.AcronymNames | chest/src/shader_defs.rs:7-10 | without their overrides GGX and GTR would become G_G_X and G_T_R |
| PbrShaderDefs.PlainArm | chest/src/shader_defs.rs:3-18 | a variant without attributes gets its converted identifier |
| PbrShaderDefs.SpecularArm | chest/src/shader_defs.rs:3-12 | the specular defines are BECKMANN, BLINN_PHONG, GGX, GTR and ANISOTROPIC, the overrides keeping the acronyms |
| PbrShaderDefs.DiffuseArm | chest/src/shader_defs.rs:14-18 | the diffuse defines are LAMBERT and BURLEY |
| PbrShaderDefs.DerivedArms | chest/src/shader_defs.rs:3-18 | the derive accepts both enums and generates five and two arms, in declaration order |
| PbrShaderDefs.DefineNamesDistinct | chest/src/shader_defs.rs:3-18 | distinct variants request distinct defines |
| SwapChains.SwapChain.constructor | core/src/lib.rs:62-80 | both textures are made from the descriptor, labelled a and b, and the chain starts with texture b current and texture a as the other |
| SwapChains.SwapChain.Clear | core/src/lib.rs:82-87 | the chain is rebuilt from its own descriptor: the flag is back to false and the descriptor is kept |
| SwapChains.SwapChain.Swap | core/src/lib.rs:93-95 | flips the flag, so the current and the other texture trade places and nothing else changes |
| SwapChains.SwapChain.CurrentTexture | core/src/lib.rs:101-107 | texture a when the flag is set, texture b otherwise, never the same as the other texture |
| SwapChains.SwapChain.AnotherTexture | core/src/lib.rs:117-123 | the texture that is not current |
| SwapChains.SwapChain.CurrentView | core/src/lib.rs:109-115 | the view of the current texture, distinct from the other view |
| SwapChains.SwapChain.AnotherView | core/src/lib.rs:125-131 | the view of the other texture |
| SwapChains.SwapChain.StartPostProcess | core/src/lib.rs:133-139 | swaps, then reads from the view that was current and writes to the one that was not, so source and destination always differ |
| TextureUtil.DimensionOf | core/src/util/mod.rs:29-37 | 1D exactly when depth and height are 1, 2D exactly when depth is 1 and height is not, 3D exactly when depth is not 1 |
| TextureUtil.CreateTexture | core/src/util/mod.rs:14-42 | the descriptor has the given size, format and usage, one mip level and one sample, the dimension above, and the format as its only view format |
| TextureUtil.CreateTextureWithView | core/src/utils.rs:14-43 | the same descriptor, with a view of that texture |
| TextureUtil.DimensionCases | core/src/util/mod.rs:29-37 | a depth other than 1 gives 3D, a 1x1 row gives 1D, any other height with depth 1 gives 2D |
| TextureUtil.StorageName | core/src/util/mod.rs:99-120 | the storage texel name of every supported format, and a panic exactly for the unsupported ones |
| TextureUtil.StorageNamesRoundTrip | core/src/util/mod.rs:99-120 | the storage name of a supported format names that format back |
| TextureUtil.StorageNamesDistinct | core/src/util/mod.rs:99-120 | two supported formats never share a storage name |
| TextureUtil.SampledName | core/src/util/mod.rs:122-133 | `f32` for a float sample type, `depth` for depth, `i32` for signed and `u32` for unsigned integers, and the `unwrap` panic when the format has none |
| TextureUtil.SampledNamesDistinct | core/src/util/mod.rs:122-133 | two sample types share a WGSL name exactly when they are the same kind (filterable or not, floats share `f32`) |
| ToneMapping.MethodDefNames | chest/src/node/tone_mapping.rs:21-26 | the derived defines are `REINHARD` and `TONY_MC_MAPFACE` |
| ToneMapping.RequireShaderDefs | chest/src/node/tone_mapping.rs:44-48 | with a method, adds that method's define set to true and keeps every other define; without one, changes nothing |
| ToneMapping.DefaultNodeRequestsNothing | chest/src/node/tone_mapping.rs:36-41 | the default node has no method and requests no define, while the default method requests `TONY_MC_MAPFACE` |
| Tangent.Handedness | core/src/render/mesh.rs:316-322 | the handedness is 1 or -1, and 1 exactly when the tangent frame is right-handed about the normal |
| Tangent.Accumulated | core/src/render/mesh.rs:277-310 | vertices past the last whole triangle keep zero tangent and bitangent |
| Tangent.TangentOf | core/src/render/mesh.rs:258-331 | every recomputed tangent has handedness 1 or -1 |
| Tangent.FinishVertex | core/src/render/mesh.rs:312-325 | a finished tangent has handedness 1 or -1 |
| Tangent.Tangents | core/src/render/mesh.rs:258-331 | one entry per vertex: the normal with its component along the accumulated tangent removed (`n.reject_from(t)`, orthogonal to t), extended by the handedness sign |
| Tangent.FinishVertices | core/src/render/mesh.rs:312-325 | the second loop finishes every vertex from its accumulated basis and normal |
| Tangent.AccumulateBases | core/src/render/mesh.rs:277-310 | the first loop leaves each vertex with the basis of its triangle, and zero for vertices past the last whole triangle |
| Tangent.CornersGiveAccumulated | core/src/render/mesh.rs:277-310 | when every triangle's corners hold its basis and the rest are zero, every vertex holds its accumulated basis |
| Tangent.AccumulateStep | core/src/render/mesh.rs:277-310 | one triangle of the loop writes its basis to its three corners and leaves the later vertices zero |
| Tangent.TriangleCorners | core/src/render/mesh.rs:277-310 | the corners of a triangle accumulate exactly that triangle's basis |
| Tangent.CornersShareBasis | core/src/render/mesh.rs:277-310 | the three corners of a triangle end up with the same tangent and bitangent |
| Tangent.RejectFromOrthogonal | core/src/render/mesh.rs:312-325 | the Gram-Schmidt step leaves a vector orthogonal to the one it is rejected from |
| Tangent.LeftoverVertex | core/src/render/mesh.rs:312-325 | a vertex past the last whole triangle accumulates a zero tangent, so its handedness is -1 and, in the exact arithmetic of the model, its xyz is the normal (`f32` gives NaN there) |
| ResultFold.Run | chest/src/import/gltf.rs:143-177 | a loop that threads a state and stops at the first `?` error: with no elements it is the start state, so only a step can fail |
| ResultFold.RunFirstError | chest/src/import/gltf.rs:143-177 | a failed run fails with the error of the first failing step, after a prefix that succeeded |
| ResultFold.Collect | chest/src/import/gltf.rs:182-213 | a loop that gathers one value per element and stops at the first error: on success there is one value per element |
| ResultFold.CollectCases | core/src/import/gltf.rs:114-140 | collecting stops at the first error: it succeeds exactly when every element does, with each value in place, and otherwise gives the first failing element's error |
| Buffers.DynamicWritten | core/src/render/resource.rs:61-75 | the dynamic buffer's `write`: the host bytes and usage stay, and the device buffer afterwards has room for the host bytes |
| Buffers.StagingWritten | core-dep/src/resource/buffer.rs:48-62 | the staging buffers' `write`: the host bytes and usage stay, the device buffer has room for them, and the buffer is no longer dirty |
| Buffers.WriteUploads | core/src/render/resource.rs:61-75 | under either write rule the host bytes are unchanged and, when non-empty, sit at the start of the device buffer; a reallocation makes a buffer of exactly those bytes and clears `changed`; otherwise the dynamic buffer keeps `changed` and its capacity |
| Buffers.WriteIdempotent | core-dep/src/resource/buffer.rs:48-62 | a second `write` without host changes in between changes nothing (for the dynamic rule, unless there were never bytes nor a buffer) |
| Buffers.WriteRulesDifferOnEmpty | core/src/render/resource.rs:61-75 | on a dirty, emptied buffer the dynamic rule keeps the old device buffer and stays dirty while the staging rule replaces it with an empty one |
| Buffers.PushAll | core/src/render/resource.rs:46-51 | successive pushes append the concatenation of the items, one offset per item, leave the device buffer alone and set `changed` |
| Buffers.PushOffsetsAreRunningSums | core/src/render/resource.rs:46-51 | the k-th push returns the prior length plus the sum of the earlier items' sizes (as `u32`) |
| Buffers.ElementCount | core/src/render/resource.rs:89-96 | `len::<E>()` is `Some(n)` with n times the stride equal to the byte count exactly when the stride divides it |
| Buffers.DynamicGpuBuffer.constructor | core/src/render/resource.rs:32-39 | `new` has no bytes, no device buffer and `changed` set |
| Buffers.DynamicGpuBuffer.Set | core/src/render/resource.rs:41-44 | `set` replaces the bytes and sets `changed` |
| Buffers.DynamicGpuBuffer.Push | core/src/render/resource.rs:46-51 | `push` returns the byte length before the call, appends exactly the data and sets `changed` |
| Buffers.DynamicGpuBuffer.Write | core/src/render/resource.rs:61-75 | `write` reallocates iff capacity < size or (`changed` and size > 0), clearing `changed`; otherwise it overwrites from offset 0 |
| Buffers.DynamicGpuBuffer.Clear | core/src/render/resource.rs:77-79 | `clear` empties the bytes and keeps `changed` and the device buffer |
| Buffers.DynamicGpuBuffer.Binding | core/src/render/resource.rs:81-87 | `binding()`/`buffer()` are present exactly when a device buffer exists |
| Buffers.DynamicGpuBuffer.Len | core/src/render/resource.rs:89-96 | the element count exists iff the stride divides the byte count, and then multiplies back to it |
| Buffers.NoBindingBeforeWrite | core/src/render/resource.rs:41-87 | any sequence of pushes, sets and clears leaves the device buffer and usage unchanged, so only `write` creates a binding |
| Buffers.StagingBuffer.Uniform | core-dep/src/resource/buffer.rs:83-86 | the default uniform buffer is empty, unbound, not dirty, with usage UNIFORM and COPY_DST; the copy at `core/src/buffer.rs:83-87` behaves the same |
| Buffers.StagingBuffer.Storage | core-dep/src/resource/buffer.rs:94-97 | the default storage buffer is empty, unbound, not dirty, with usage STORAGE and COPY_DST; the copy at `core/src/buffer.rs:95-98` behaves the same |
| Buffers.StagingBuffer.Set | core-dep/src/resource/buffer.rs:25-29 | `set` replaces the bytes and sets `changed`; the copy at `core/src/buffer.rs:26-30` behaves the same |
| Buffers.StagingBuffer.Push | core-dep/src/resource/buffer.rs:31-36 | `push` returns the prior byte length, appends the bytes and sets `changed` |
| Buffers.StagingBuffer.Write | core-dep/src/resource/buffer.rs:48-62 | `write` reallocates iff `changed` or capacity < size (even for size 0), then clears `changed`; otherwise it overwrites in place; the copy at `core/src/buffer.rs:47-62` behaves the same |
| Buffers.StagingBuffer.Clear | core-dep/src/resource/buffer.rs:64-67 | `clear` empties the bytes and keeps `changed`; the copy at `core/src/buffer.rs:64-67` behaves the same |
| Buffers.StagingBuffer.Binding | core-dep/src/resource/buffer.rs:70-74 | the binding is present exactly when a device buffer exists; the copy at `core/src/buffer.rs:69-72` behaves the same |
| Buffers.GpuBuffer.Uniform | core-dep/src/resource/buffer.rs:106-120 | `uniform()` is `Some` exactly for the Uniform variant, holding its buffer |
| Buffers.GpuBuffer.Storage | core-dep/src/resource/buffer.rs:122-136 | `storage()` is `Some` exactly for the Storage variant, holding its buffer |
| Buffers.GpuBuffer.Written | core-dep/src/resource/buffer.rs:194-199 | writing an entry keeps its variant and writes its buffer with the staging rule |
| Buffers.UniformIn | core-dep/src/resource/buffer.rs:156-158 | `get_uniform` finds a buffer exactly when T's entry exists and is a uniform buffer |
| Buffers.StorageIn | core-dep/src/resource/buffer.rs:173-175 | `get_storage` finds a buffer exactly when T's entry exists and is a storage buffer |
| Buffers.PushedUniform | core-dep/src/resource/buffer.rs:166-171 | pushing through `get_or_insert_uniform().unwrap()` panics iff T's key holds a storage buffer; otherwise only T's entry changes and it is a uniform buffer |
| Buffers.SceneBuffers.constructor | core-dep/src/resource/buffer.rs:150-153 | the registry starts empty |
| Buffers.SceneBuffers.GetUniform | core-dep/src/resource/buffer.rs:156-158 | present only when T's entry is a uniform buffer; the function reads the map without changing it |
| Buffers.SceneBuffers.GetStorage | core-dep/src/resource/buffer.rs:173-175 | present only when T's entry is a storage buffer; the map is not changed |
| Buffers.SceneBuffers.GetOrInsertUniform | core-dep/src/resource/buffer.rs:166-171 | an absent key gets a default uniform buffer, an existing entry is untouched; the result is `Some` iff the entry is a uniform buffer |
| Buffers.SceneBuffers.GetOrInsertStorage | core-dep/src/resource/buffer.rs:183-188 | an absent key gets a default storage buffer, an existing entry is untouched; the result is `Some` iff the entry is a storage buffer |
| Buffers.SceneBuffers.PushUniform | core-dep/src/resource/buffer.rs:160-164 | pushing through T's uniform buffer returns its prior length and changes only that entry |
| Buffers.SceneBuffers.ClearUniform | core-dep/src/resource/buffer.rs:160-164 | clearing T's uniform buffer changes only that entry |
| Buffers.SceneBuffers.Insert | core-dep/src/resource/buffer.rs:190-192 | `insert` replaces only T's entry |
| Buffers.SceneBuffers.Write | core-dep/src/resource/buffer.rs:194-199 | every entry is written with its own rule, whatever the visiting order |
| LegacyMaterial.UniformOf | core-dep/src/resource/material.rs:74-79 | the uniform holds the base colour through `to_linear_rgba` (alpha included), metallic and roughness copied and zero padding |
| LegacyMaterial.PushUniform | core-dep/src/resource/material.rs:70-80 | `push_uniform` appends under the material's own type key (a default uniform buffer if absent) and returns the prior length; a storage buffer there panics on `unwrap` |
| LegacyMaterial.Bind | core-dep/src/resource/material.rs:82-93 | as written `bind` finds a buffer iff the `StandardMaterialUniform` entry is a uniform buffer that has been allocated |
| LegacyMaterial.BindFixed | core-dep/src/resource/material.rs:82-93 | with the key `push_uniform` writes, a buffer is found iff that entry is an allocated uniform buffer |
| LegacyMaterial.BindMissesPushedUniform | core-dep/src/resource/material.rs:70-93 | as written, after a push and a registry write, `bind` returns `None` whenever nothing sits under the uniform's own type |
| LegacyMaterial.BindFixedSeesPushedUniform | core-dep/src/resource/material.rs:70-93 | with the key corrected, after a push and a write the bound buffer holds the pushed bytes at the returned offset |
| LegacyResource.NewResRef | core-dep/src/resource/mod.rs:21-25 | `ResRef::new` wraps the id |
| LegacyResource.ResRefEqualById | core-dep/src/resource/mod.rs:18-25 | two handles are equal exactly when their ids are |
| LegacyResource.MeshFromObj | core-dep/src/resource/mod.rs:40-69 | the mesh is the fan-triangulated corners of the file's last group, as position/normal pairs, under the given material; a corner without texture or normal index is `unreachable!`, a bad index panics |
| LegacyResource.EarlierGroupsDiscarded | core-dep/src/resource/mod.rs:45-48 | the vertex list is cleared per group, so when the last group has no polygons the mesh is empty whatever came before |
| LegacyResource.CloneToGpu | core-dep/src/resource/mod.rs:94-116 | the GPU texture is a single-layer, single-mip, single-sample 2-D RGBA8 texture of the host size holding the host bytes |
| LegacyGpuScene.MeshToGpu | core-dep/src/scene/render/entity.rs:60-74 | the vertex count (as `u32`) and the material handle travel with the vertex buffer |
| LegacyGpuScene.LightsBytes | core-dep/src/scene/render/mod.rs:40-45 | one `GpuDirectionalLight` per light, in scene order |
| LegacyGpuScene.SceneBindings | core-dep/src/scene/render/mod.rs:110-123 | as written, both buffers are looked up with `get_uniform`: a binding pair exists iff both entries are uniform buffers |
| LegacyGpuScene.SceneBindingsFixed | core-dep/src/scene/render/mod.rs:110-123 | looking the lights up as storage, a binding pair exists iff the camera entry is uniform and the lights entry storage |
| LegacyGpuScene.GpuScene.constructor | core-dep/src/scene/render/mod.rs:39-108 | the registry holds the lights as Storage and one camera as Uniform; no group is bound; the clear colour is linearised; one GPU mesh per mesh, one GPU texture per texture under the same key; materials copied |
| LegacyGpuScene.GpuScene.WriteScene | core-dep/src/scene/render/mod.rs:110-123 | every buffer is written; the groups are bound only if both `get_uniform` lookups succeed; nothing else changes |
| LegacyGpuScene.GpuScene.WriteSceneFixed | core-dep/src/scene/render/mod.rs:110-123 | with the lights read by `get_storage`, the groups bind the written camera and light buffers |
| LegacyGpuScene.GpuScene.UpdateCamera | core-dep/src/scene/render/mod.rs:125-129 | panics without a camera uniform; otherwise the camera buffer holds exactly one camera's bytes and no other entry changes |
| LegacyGpuScene.WriteSceneNeverBinds | core-dep/src/scene/render/mod.rs:110-118 | while the lights are a storage buffer, `write_scene` always returns early without binding |
| LegacyGpuScene.NewRegistryHoldsLightsAsStorage | core-dep/src/scene/render/mod.rs:92-94 | `new` registers the lights as Storage and the camera as Uniform, and nothing under the material uniform's type |
| LegacyGpuScene.WriteSceneFixedBindsBoth | core-dep/src/scene/render/mod.rs:39-123 | corrected, a fresh scene with lights binds the camera's bytes and every light's bytes in scene order |
| LegacyGpuScene.WriteSceneFixedPanicsWithoutLights | core-dep/src/scene/render/mod.rs:39-123 | corrected, a scene without lights panics: its storage buffer was never dirty, so no device buffer is made and `binding().unwrap()` fails |
| LegacyGpuScene.SceneMaterialsNeverBind | core-dep/src/resource/material.rs:70-93 | materials pushed into a fresh scene's registry are never bound by `bind` as written |
| ChestMaterial.Transfer | chest/src/material.rs:201-211 | `transfer` copies roughness and metallic, stores the reflectance in `ior` and linearises the base colour |
| ChestMaterial.DefaultTransfer | chest/src/material.rs:33-44 | the default material (white, no textures, roughness 1, metallic 0, reflectance 1) transfers to linear white, 1, 0, 1; black stays black |
| ChestMaterial.PbrLayoutShape | chest/src/material.rs:55-124 | the layout has six entries, binding i at index i; only binding 0 is a buffer and only binding 4 (the LUT) is a 3D float texture |
| ChestMaterial.CreateLayout | chest/src/material.rs:55-58 | `create_layout` puts the PBR layout under the material type's key, whatever the instance |
| ChestMaterial.AddedMaterialHasLayout | core/src/render/scene.rs:101-108 | after an Added material event the type has a layout, and a type that already had one keeps it unchanged |
| ChestMaterial.Prepared | chest/src/material.rs:195-198 | `prepare` panics (`unwrap`) when the type has no buffer; otherwise only that buffer changes, the uniform's bytes are appended and the prior length is returned |
| ChestMaterial.ConsecutivePrepares | chest/src/material.rs:195-198 | two materials prepared in a row get consecutive offsets: the second is the first plus the first uniform's size |
| ChestMaterial.Prepare | chest/src/material.rs:195-198 | the assets' buffers become `Prepared` of the transferred uniform; textures, bind groups and layouts are untouched |
| ChestMaterial.TextureKey | chest/src/material.rs:150-157 | a texture slot binds the material's own texture, or `DUMMY_2D_TEX` when it has none |
| ChestMaterial.PbrBindGroup | chest/src/material.rs:126-193 | no group iff the type has no buffer or the buffer was never written; otherwise a missing layout or texture panics; the group binds the buffer, the two textures (with fallback) and the LUT |
| ChestMaterial.UntexturedUsesDummy | chest/src/material.rs:150-157 | an untextured material binds the fallback texture in both slots |
| ChestMaterial.CreateBindGroup | chest/src/material.rs:126-138 | the group is inserted under the instance uuid passed in, not the type uuid; buffers, textures and layouts are unchanged |
| Color.Gamma | core-dep/src/color.rs:54-60 | sRGB decoding of one channel: 0 stays 0, and on the straight segment (up to 0.04045) a positive value shrinks and a negative one moves towards 0 |
| Color.GammaInv | core-dep/src/color.rs:63-69 | sRGB encoding of one channel: 0 stays 0, a positive value on the straight segment (up to 0.0031308) grows but stays within 0.04045, and a negative one moves away from 0 |
| Color.ToLinearRgba | core-dep/src/color.rs:44-51 | every channel is decoded on its own, alpha included, so a grey stays grey and a zero alpha stays zero |
| Color.ToSrgba | core-dep/src/color.rs:113-120 | every channel is encoded on its own, alpha included, so a grey stays grey and a zero alpha stays zero |
| Color.CurvesFixEnds | core-dep/src/color.rs:54-69 | over reals, `gamma` and `gamma_inv` both map 0 to 0 and 1 to 1 (in f32 `gamma_inv(1.0)` is 0.99999994, see "## Left out") |
| Color.ConstantsConvertToThemselves | core-dep/src/color.rs:23-51 | over reals, BLACK, WHITE and TRANSPARENT convert to themselves in both directions (in f32 only `to_linear_rgba` keeps them exactly, see "## Left out") |
| Color.LinearSegmentsRoundTrip | core-dep/src/color.rs:54-69 | on the straight segments the curves undo each other; the thresholds do not quite meet (12.92 * 0.0031308 < 0.04045) |
| Color.AlphaIsCurvedToo | core-dep/src/color.rs:44-51 | alpha goes through the curve too: a faint alpha is divided by 12.92 and round-trips channel by channel |
| Color.SrgbaIntoWgpu | core-dep/src/color.rs:135-144 | the conversion copies r, g, b, a in order |
| Color.LinearIntoWgpu | core-dep/src/color.rs:146-155 | the conversion copies r, g, b, a in order |
| CubeMap.LabelAxis | core/src/util/cube.rs:13-43 | each OpenGL face label names one signed unit axis |
| CubeMap.FaceAlong | core/src/util/cube.rs:12-49 | every signed unit axis is the target of some face |
| CubeMap.FaceTargetsAreAxes | core/src/util/cube.rs:12-49 | the six targets are the six signed unit axes, each exactly once |
| CubeMap.PairedFacesOppose | core/src/util/cube.rs:12-49 | faces 2k and 2k+1 have opposite targets |
| CubeMap.UpsAreOrthogonalAxes | core/src/util/cube.rs:12-49 | each up vector is a unit axis orthogonal to its face's target |
| CubeMap.TargetsOpposeLabels | core/src/util/cube.rs:12-49 | each face's target is the negation of the axis its OpenGL label names |
| CubeMap.FaceIdsDistinct | core/src/util/cube.rs:12-49 | the six face ids are pairwise distinct |
| CubeMap.OffsetsMatchAtlas | core/src/util/cube.rs:51-63 | the offsets are six distinct cells of the 4 x 3 grid, each the cell the doc comment gives that face |
| MeshLayout.Components | core/src/render/mesh.rs:101-149 | every attribute format has one to four components |
| MeshLayout.Size | core/src/render/mesh.rs:168-170 | an attribute element takes four bytes per component, so 4 to 16 bytes |
| MeshLayout.Lookup | core/src/render/mesh.rs:269-271 | an attribute is found exactly when one with that id is in the map, and what is found has that id |
| MeshLayout.Inserted | core/src/render/mesh.rs:195-206 | inserting keeps the map sorted by id and adds nothing but the new data under the key's id |
| MeshLayout.InsertedLookup | core/src/render/mesh.rs:195-197 | after an insert the id finds the new data under the previously stored key, other ids find what they found before, and the map grows only for a new id |
| MeshLayout.InsertedLookups | core/src/render/mesh.rs:195-197 | the insert lookup property holds for every id at once |
| MeshLayout.InsertSameIsNoOp | core/src/render/mesh.rs:195-197 | inserting the data already stored under an id leaves the map unchanged |
| MeshLayout.InsertedAtEnd | core/src/render/mesh.rs:195-197 | inserting an id greater than every stored id appends the entry |
| MeshLayout.LookupBelowFirst | core/src/render/mesh.rs:82-92 | in a map ordered by id, no id below the first key is found |
| MeshLayout.OffsetsAreRunningSums | core/src/render/mesh.rs:333-369 | the first attribute offset is 0, each next one adds the previous attribute's size, and the sum of all sizes is the stride |
| MeshLayout.DataOffsetMonotone | core/src/render/mesh.rs:376-388 | the running data offset never decreases |
| MeshLayout.ConsistentOffsets | core/src/render/mesh.rs:376-388 | when keys and data agree on formats, data is written at exactly the offsets the layout declares |
| MeshLayout.VertexCount | core/src/render/mesh.rs:348-363 | the vertex count is 0 without attributes, otherwise the length of the shortest attribute |
| MeshLayout.CastBytes | core/src/render/mesh.rs:151-166 | cast_bytes puts the elements back to back, four bytes per component |
| MeshLayout.CastBytesAt | core/src/render/mesh.rs:151-166 | element v occupies bytes v*size up to (v+1)*size of the cast bytes |
| MeshLayout.RowsApart | core/src/render/mesh.rs:381-385 | bytes of different vertex rows never coincide |
| MeshLayout.RowInside | core/src/render/mesh.rs:374-385 | every byte of the first count rows lies inside the buffer |
| MeshLayout.ScalarsRoundTrip | core/src/render/mesh.rs:264-271 | reading a stored 2- or 3-vector back gives the same vector |
| MeshLayout.TangentError | core/src/render/mesh.rs:264-275 | recalculation fails exactly when an input attribute is missing (an index panic) or of the wrong variant (unreachable) |
| MeshLayout.LookupLongEnough | core/src/render/mesh.rs:277-315 | every attribute, the three inputs included, has at least vertex-count elements, so the tangent loops stay in bounds |
| MeshLayout.TangentSources | core/src/render/mesh.rs:264-315 | the position, normal and uv lists the tangent pass reads each have vertex-count elements |
| MeshLayout.TangentItems | core/src/render/mesh.rs:277-325 | the tangent data is Float32x4 with one well-formed element per vertex |
| MeshLayout.TangentData | core/src/render/mesh.rs:258-330 | recalculate_tangent inserts Float32x4 data with exactly one tangent per vertex |
| MeshLayout.TangentHandedness | core/src/render/mesh.rs:316-324 | every tangent's fourth component is 1 or -1 |
| MeshLayout.InsertedKeepsCount | core/src/render/mesh.rs:195-197 | inserting well-formed data with vertex-count elements keeps every attribute well formed and the count unchanged |
| MeshLayout.RecalculatedAttributes | core/src/render/mesh.rs:258-330 | after recalculation the vertex count and inputs are unchanged, the tangent attribute holds the new data, and other ids are untouched |
| MeshLayout.RecalculateTangentIdempotent | core/src/render/mesh.rs:258-330 | recalculating tangents a second time changes nothing |
| MeshLayout.PositionsData | core/src/render/mesh.rs:230-241 | the position attribute holds one well-formed element per corner |
| MeshLayout.NormalsData | core/src/render/mesh.rs:231-245 | the normal attribute holds one well-formed element per corner |
| MeshLayout.TexCoordsData | core/src/render/mesh.rs:232-249 | the texture-coordinate attribute holds one well-formed element per corner |
| MeshLayout.ObjBaseShape | core/src/render/mesh.rs:238-250 | the three inserts give position, normal and texture coordinates in id order, one element per corner |
| MeshLayout.ObjBaseInputs | core/src/render/mesh.rs:238-251 | those three attributes give recalculate_tangent its inputs, one vertex per corner |
| MeshLayout.CornerTangents | core/src/render/mesh.rs:277-325 | the tangents of consecutive corner triangles, one per corner |
| MeshLayout.ObjMeshAttributes | core/src/render/mesh.rs:238-251 | a mesh from an OBJ object has four sorted, consistent attributes and one vertex per corner |
| MeshLayout.ObjMeshBuilt | core/src/render/mesh.rs:238-251 | the three inserts followed by recalculate_tangent build exactly those four attributes |
| MeshLayout.ObjTangentsReadBack | core/src/render/mesh.rs:251-325 | the tangent pass reads back exactly the corner vectors that the inserts stored |
| MeshLayout.SourcesReadBack | core/src/render/mesh.rs:264-289 | attributes holding the corners' vectors return those same vectors to the tangent pass |
| MeshLayout.ColumnsReadBack | core/src/render/mesh.rs:264-289 | the stored position, normal and uv columns read back as the corners' vectors |
| MeshLayout.ObjMeshLayout | core/src/render/mesh.rs:333-390 | an OBJ mesh has a 48-byte stride with attributes at 0, 12, 24 and 32, and its buffer data does not panic |
| MeshLayout.Mesh.constructor | core/src/render/mesh.rs:191-193 | a new mesh has no attributes |
| MeshLayout.Mesh.InsertAttribute | core/src/render/mesh.rs:195-206 | the attribute map becomes the insert of the key and data into the old map, still sorted |
| MeshLayout.Mesh.VerticesCount | core/src/render/mesh.rs:348-363 | the loop returns the vertex count: the minimum attribute length, or 0 |
| MeshLayout.Mesh.VertexLayout | core/src/render/mesh.rs:333-346 | one entry per attribute in id order, with its key format, its running offset and its rank as shader location |
| MeshLayout.Mesh.AssertVertex | core/src/render/mesh.rs:421-428 | succeeds exactly when the caller's formats match the key formats one for one and in order; otherwise an assertion panic |
| MeshLayout.Mesh.VertexBufferData | core/src/render/mesh.rs:371-390 | panics exactly when data formats overrun the stride; otherwise count*stride bytes with each element copied into its column of its row |
| MeshLayout.Mesh.RecalculateTangent | core/src/render/mesh.rs:258-331 | on missing or mistyped inputs panics and changes nothing; otherwise stores the tangent data under the tangent id |
| MeshLayout.PlaceColumn | core/src/render/mesh.rs:377-388 | one attribute pass panics exactly when its data overruns the row, otherwise places its column and advances the offset |
| MeshLayout.CopyColumn | core/src/render/mesh.rs:381-385 | copies element v of attribute j into row v for every vertex, keeping earlier columns in place |
| MeshLayout.ColumnPlaced | core/src/render/mesh.rs:381-385 | once attribute j's column is written, the first j+1 attributes are in place |
| MeshLayout.CopyElement | core/src/render/mesh.rs:382-384 | the copy writes one element into its row and column and changes no byte of another row or of an earlier attribute |
| MeshLayout.WriteKeepsPlaced | core/src/render/mesh.rs:382-384 | writing a byte at or past attribute j's offset leaves every earlier attribute in place |
| MeshLayout.FromObj | core/src/render/mesh.rs:208-256 | succeeds exactly when every object's corners resolve; then one mesh per object holding that object's four attributes |
| MeshLayout.ObjMesh | core/src/render/mesh.rs:238-252 | the loop body builds a new mesh from the object's corners |
| MotionVector.Prepared | chest/src/node/motion_vector_prepass.rs:201-206 | after one prepare, the buffer holds only the remembered view's bytes and the camera's inverse view is remembered |
| MotionVector.Uploads | chest/src/node/motion_vector_prepass.rs:187-207 | successive prepares upload one view per camera |
| MotionVector.UploadsLagOneFrame | chest/src/node/motion_vector_prepass.rs:201-206 | the k-th prepare uploads the view of the camera the previous prepare saw, and the first uploads the view the node was built with |
| MotionVector.MotionVectorPrepassNode.constructor | chest/src/node/motion_vector_prepass.rs:135-139 | a default node has no data until it is built |
| MotionVector.MotionVectorPrepassNode.Build | chest/src/node/motion_vector_prepass.rs:135-139 | build sets the remembered view to the default matrix and gives the node a fresh, empty uniform buffer |
| MotionVector.MotionVectorPrepassNode.Prepare | chest/src/node/motion_vector_prepass.rs:187-207 | before build nothing changes; afterwards the node's data becomes that of one prepare |
| MotionVector.MotionVectorPrepassNode.Draw | chest/src/node/motion_vector_prepass.rs:209-283 | before build it returns without work. A built node panics on a missing camera binding or a previous-view buffer never written (`entire_binding().unwrap()`), and on a missing prepass view, scene mesh or pipeline (map index). Otherwise it submits one draw call per queued mesh |
| MotionVector.PreparedBinds | chest/src/node/motion_vector_prepass.rs:200-204 | a prepare that uploads a non-empty view, or follows an earlier upload, leaves a device buffer, so draw's second unwrap succeeds after it |
| ObjImport.FanIndices | chest/src/import/obj.rs:19-20 | an n-corner polygon gives 3(n-2) corner indices (none for n < 3), all below n |
| ObjImport.FanShape | chest/src/import/obj.rs:19-20 | fan triangle t uses corners 0, t+1 and t+2 |
| ObjImport.FanIndicesIsFan | chest/src/import/obj.rs:19-20 | the index list is the fan triangulation, triangle by triangle |
| ObjImport.Resolve | chest/src/import/obj.rs:21-29 | a corner missing its texture or normal index is unreachable; with both present, an out-of-range index panics; otherwise the corner holds the indexed entries |
| ObjImport.ResolvePrefix | chest/src/import/obj.rs:19-30 | resolving the first k fan corners gives exactly k corners, or the first failure |
| ObjImport.GroupsCorners | chest/src/import/obj.rs:17-33 | one corner list per group, or the first failure |
| ObjImport.AppendPolygon | chest/src/import/obj.rs:19-31 | one polygon appends its resolved fan to the list, or fails with the fan's failure |
| ObjImport.AppendTriangle | chest/src/import/obj.rs:20-30 | the inner loop extends the resolved fan prefix by one triangle, or fails as the whole fan would |
| ObjImport.PushCorner | chest/src/import/obj.rs:21-29 | one push extends the resolved prefix by one corner, or fails as the whole fan would |
| ObjImport.ResolvePrefixNext | chest/src/import/obj.rs:20-29 | resolving one more corner appends its value, or fails with its failure |
| ObjImport.ResolvePrefixErr | chest/src/import/obj.rs:20-29 | the first failing corner decides the failure of the whole list |
| ObjImport.AppendGroup | chest/src/import/obj.rs:18-32 | one group appends the corners of its polygons in order, or fails with the first failure |
| ObjImport.AccumulateObject | chest/src/import/obj.rs:12-33 | an object's list holds the corners of all its groups concatenated, and it fails exactly when some group fails |
| ObjImport.ClearPerGroup | core/src/scene/resource.rs:203-224 | a list cleared per group ends with only the last group's corners (or the start list with no groups), and still fails if any group fails |
| ObjImport.GroupCornersSnoc | chest/src/import/obj.rs:18-32 | one more polygon extends the group's corners by its fan, or fails with the polygon's failure |
| ObjImport.ExtendedInFront | chest/src/import/obj.rs:17-33 | extending an accumulated list is extending the new part and putting the old list in front |
| ObjImport.GroupsPrefixErr | chest/src/import/obj.rs:17-33 | a failure in some prefix of the groups is a failure of the whole object |
| ObjImport.GroupCornersAreTriangles | chest/src/import/obj.rs:18-32 | every group's corner count is a multiple of three |
| ObjImport.FlattenTriangles | chest/src/import/obj.rs:17-33 | joining lists of whole triangles gives whole triangles |
| ObjImport.GroupsAreTriangles | chest/src/import/obj.rs:17-33 | every group of an object holds whole triangles |
| ObjImport.PolygonContribution | chest/src/import/obj.rs:19-20 | a polygon with fewer than three corners contributes nothing; one with n >= 3 contributes 3(n-2) corners |
| ObjImport.PerObjectAccumulated | chest/src/import/obj.rs:12-50 | one corner list per object, each the concatenation of its groups; it fails only if some object fails |
| ObjImport.ResolvePrefixPointwise | chest/src/import/obj.rs:20-29 | a fan resolves exactly when every named corner does, and then holds their values in order |
| ObjImport.PolygonTriangle | chest/src/import/obj.rs:19-29 | triangle t of a resolved polygon is its corners 0, t+1 and t+2, in that order |
| ObjImport.PerObjectLastGroup | core/src/scene/resource.rs:202-229 | succeeds exactly when every object's groups resolve, then one list per object holding its last group's corners; the length-divisible-by-three assertion never fails, so a failure is only unreachable or an index out of range |
| ObjImport.ResolvePrefixPanics | chest/src/import/obj.rs:21-29 | corner lookups fail only as unreachable or as an out-of-range index |
| ObjImport.GroupCornersPanics | chest/src/import/obj.rs:18-32 | a group fails only as unreachable or as an out-of-range index |
| ObjImport.AllGroups | core/src/scene/component.rs:117-118 | every group of every object, in file order; none for no objects |
| ObjImport.GroupsCornersAppend | core/src/scene/component.rs:117-137 | groups joined succeed exactly when both parts do, and the lists join in order |
| ObjImport.SharedLastGroup | core/src/scene/component.rs:116-139 | a single list shared across the file ends as the last group of the file (empty with no groups), and fails exactly when some group fails |
| ObjImport.AllGroupsStep | core/src/scene/component.rs:117-137 | one more object's groups: the file so far parses exactly when they do, and the last list is theirs if they have any |
| ObjImport.AllGroupsPrefixErr | core/src/scene/component.rs:117-137 | a failure in the groups of some prefix of the objects fails the whole file |
| SceneComponent.DepthOrder | core/src/scene/component.rs:72-103 | an orthographic projection swaps near and far, so depth is reversed, and keeps its side planes; a perspective projection keeps near and far |
| SceneComponent.DefaultProjectionFacts | core/src/scene/component.rs:37-70 | the default camera is a perspective with a quarter-pi field of view, aspect 1 and planes at 0.1 and 1000, with forward depth |
| SceneComponent.MeshFromObj | core/src/scene/component.rs:111-140 | one mesh for the whole file, holding the positions and normals of the file's last group; fails exactly when some group fails, and only as unreachable or out of range |
| SceneResource.Linearised | core/src/scene/resource.rs:51-63 | the light colour is linearised channel by channel, so black stays black |
| SceneResource.TransferCamera | core/src/scene/resource.rs:32-43 | the GPU camera has the camera's position and exposure, the inverse of its placement as view, and its projection |
| SceneResource.CameraTransfersCompared | core/src/scene/resource.rs:32-43 | this transfer and the render-side camera conversion agree on a perspective camera, but differ on an orthographic one with distinct planes, whose depth only this one reverses |
| SceneResource.TransferDirectional | core/src/scene/resource.rs:45-55 | a directional light transfers its forward direction, linearised colour and intensity |
| SceneResource.TransferPoint | core/src/scene/resource.rs:57-67 | a point light transfers its position, linearised colour and intensity |
| SceneResource.TransferSpot | core/src/scene/resource.rs:69-82 | a spot light transfers its position, forward direction, linearised colour, intensity and both cone angles |
| SceneResource.SpotExtendsPoint | core/src/scene/resource.rs:57-82 | a spot light transfers like the point light at its place, plus direction and cone; a black light stays black |
| SceneResource.DirectionalShadowProjection | core/src/scene/resource.rs:93 | the directional shadow projection is the orthographic box of half-size 16 with near and far 10 and -10 swapped |
| SceneResource.AsCameras | core/src/scene/resource.rs:85-127 | a directional light gives one camera, a point or spot light six; all sit at the light's position with exposure 0 |
| SceneResource.AsCamerasMatchLightViews | core/src/scene/resource.rs:85-127 | the real camera is never used; point and spot cameras are the cube views at the light's position; the directional camera looks along the light's placement with forward depth |
| SceneResource.ImageTexture | core/src/scene/resource.rs:164-188 | an image becomes one 2D sRGB RGBA8 layer of its size with one mip and one sample, initialised with its bytes |
| SceneResource.ImageTextureIsCreated | core/src/scene/resource.rs:164-188 | for an image more than one texel high, that descriptor is the one create_texture describes for a single layer |
| SceneResource.Positions | core/src/scene/resource.rs:247-251 | the positions of the vertices, in order |
| SceneResource.Normals | core/src/scene/resource.rs:276 | the normals of the vertices, in order |
| SceneResource.Uvs | core/src/scene/resource.rs:254-258 | the texture coordinates of the vertices, in order |
| SceneResource.WithTangents | core/src/scene/resource.rs:238-287 | recalculation keeps every position, normal and uv and gives every tangent a handedness of exactly 1 or -1 |
| SceneResource.WithTangentsAt | core/src/scene/resource.rs:273-286 | vertex i gets the tangent finished from the tangent and bitangent the first loop accumulated for it |
| SceneResource.WithTangentsIdempotent | core/src/scene/resource.rs:238-287 | recalculating tangents a second time changes nothing |
| SceneResource.CornerVertices | core/src/scene/resource.rs:215-220 | one vertex per corner, with its position, normal and uv |
| SceneResource.Mesh.constructor | core/src/scene/resource.rs:226 | a mesh holds the vertices it is given |
| SceneResource.Mesh.VerticesCount | core/src/scene/resource.rs:234-236 | the vertex count as u32: the length of the list whenever it fits |
| SceneResource.Mesh.RecalculateTangent | core/src/scene/resource.rs:238-287 | the vertices become their recalculated version, written in place vertex by vertex |
| SceneResource.Mesh.Transfer | core/src/scene/resource.rs:290-305 | a fresh vertex buffer holding every vertex's bytes in order, uploaded when non-empty |
| SceneResource.MeshesFromObj | core/src/scene/resource.rs:196-232 | succeeds exactly when every object's groups resolve, then one fresh mesh per object holding the last group's vertices with recalculated tangents; the divisible-by-three assertion never fails, so a failure is only unreachable or an index out of range |
| SceneResource.MeshesOf | core/src/scene/resource.rs:225-229 | each object's corner list becomes a fresh mesh with recalculated tangents |
| GltfData.SplitOnce | chest/src/import/gltf.rs:60-63 | nothing iff the delimiter does not occur; otherwise left + delimiter + right is the input and left holds no delimiter; the copy at `core/src/import/gltf.rs:41-44` behaves the same |
| GltfData.SplitOnceUnique | chest/src/import/gltf.rs:60-63 | the split is the only one whose left part holds no delimiter, so later delimiters stay in the right part |
| GltfData.NotInPrefix | chest/src/import/gltf.rs:70-73 | a character missing from a text is missing from the text with its suffix stripped |
| GltfData.FromParts | chest/src/import/gltf.rs:70-79 | a media part without commas and the data give a well-formed URI that writes out as `data:` + media + `,` + data |
| GltfData.Parse | chest/src/import/gltf.rs:66-80 | succeeds iff the input starts with `data:` and the rest contains a comma; the result writes back out to the input, with the media type before the first comma and `;base64` stripped into the flag; the copy at `core/src/import/gltf.rs:47-61` behaves the same |
| GltfData.ParseFormat | chest/src/import/gltf.rs:66-80 | parsing a well-formed data URI's text gives the URI back |
| GltfData.Decode | chest/src/import/gltf.rs:82-88 | non-base64 data decodes to its own bytes; base64 data to what the decoder gives, or nothing when malformed; the copy at `core/src/import/gltf.rs:63-69` behaves the same |
| GltfData.UriBytes | chest/src/import/gltf.rs:198-205 | a data URI of a valid MIME type is decoded (a malformed base64 is `Base64DecodeError`); any other data URI is `BufferFormatUnsupported`; a non-data URI is read as a file |
| GltfData.BufferBytes | chest/src/import/gltf.rs:186-207 | a Bin buffer is the blob, or `MissingBlob` without one; a URI that is not UTF-8 after percent-decoding panics (`unwrap`); otherwise its bytes are `UriBytes` |
| GltfData.PlainDataUriLoads | chest/src/import/gltf.rs:198-205 | a plain data URI of a valid type loads as the bytes of its own data text |
| GltfData.LoadBuffersData | chest/src/import/gltf.rs:182-213 | succeeds iff every buffer loads, with one byte vector per buffer in order; otherwise the error is that of the first buffer that fails; the copy at `core/src/import/gltf.rs:111-142` behaves the same |
| GltfData.ViewBytes | chest/src/import/gltf.rs:244-245 | a view's bytes exist iff its buffer exists and offset + length fits; they are exactly the buffer's bytes from the offset |
| GltfData.FloatCount | chest/src/import/gltf.rs:403-406 | the length check of `cast_slice` to `f32`: it passes iff the byte count is a multiple of 4, giving a quarter as many floats (the alignment check is not modelled) |
| GltfImport.AsciiLower | chest/src/import/gltf.rs:224 | lower-casing keeps the length, lowers ASCII capitals and keeps everything else |
| GltfImport.FormatOfLower | chest/src/import/gltf.rs:224-241 | a lower-case MIME type has a format iff it is one of the 18 table entries |
| GltfImport.ImageFormatOf | chest/src/import/gltf.rs:224-241 | a MIME type has a format iff its lower-case form is in the table; otherwise the importer panics |
| GltfImport.AsciiLowerIdempotent | chest/src/import/gltf.rs:224 | lower-casing twice changes nothing more |
| GltfImport.ImageFormatIgnoresCase | chest/src/import/gltf.rs:224-241 | the table is case-insensitive: a type and its lower-case form get the same format |
| GltfImport.LinearTextures | chest/src/import/gltf.rs:115-126 | a texture is linear iff some material uses it as a normal, occlusion or metallic-roughness map |
| GltfImport.TextureImage | chest/src/import/gltf.rs:221-258 | a view texture is its view's exact bytes in the format of its MIME type (panic for an unknown type), sRGB iff not linear; a URI texture is the file it names, and a failed decode or read panics |
| GltfImport.LoadTextures | chest/src/import/gltf.rs:215-261 | one image per texture in order, each `TextureImage`, or the first panic |
| GltfImport.ProjectionAsWritten | chest/src/import/gltf.rs:271-284 | as written, `xmag`/`ymag` go to `symmetric` as full width and height, so the box spans -xmag/2..xmag/2 and -ymag/2..ymag/2 with znear and zfar kept; otherwise the perspective part |
| GltfImport.PerspectiveOf | chest/src/import/gltf.rs:275-284 | a camera with neither projection is `unreachable!`; a perspective one without aspect ratio or far plane panics on `unwrap`; otherwise its fields are copied |
| GltfImport.Projection | chest/src/import/gltf.rs:271-284 | with `xmag`/`ymag` read as the half extents glTF defines, the orthographic planes are -xmag..xmag and -ymag..ymag |
| GltfImport.OrthographicViewHalved | chest/src/import/gltf.rs:271-274 | the two differ on an orthographic camera with xmag 1: as written it sees 0.5 to the right instead of 1 |
| GltfImport.LoadCamera | chest/src/import/gltf.rs:263-287 | a missing camera panics; otherwise the projection is the one as written (an orthographic box of half the glTF extents), the transform the node's translation and rotation with unit scale, the exposure the default |
| GltfImport.LoadLight | chest/src/import/gltf.rs:289-346 | exactly one slot is filled by the light's type; radius 1; colour and intensity copied; a directional or spot light points along the node rotation applied to +Z; point and spot positions are the node translation; a spot copies its cone and needs one |
| GltfImport.TextureRef | chest/src/import/gltf.rs:493-500 | a texture reference resolves to the id of that texture, or panics when out of range |
| GltfImport.LoadMaterial | chest/src/import/gltf.rs:475-505 | no index gives the default material; otherwise reflectance 0.5, the first three base-colour factors, roughness and metallic copied, textures resolved; a missing material panics |
| GltfImport.IndexStream | chest/src/import/gltf.rs:371-382 | reading succeeds exactly when the index view exists, lies in its buffer and holds whole u16 (2-byte) or u32 (4-byte) indices, giving their count; an existing in-range view of any other type is `unreachable!` |
| GltfImport.AttributeStream | chest/src/import/gltf.rs:388-438 | the primitive must be triangles, the view must exist and lie in its buffer, positions, normals, tangents and texcoord 0 must be `f32` filling whole floats (alignment aside); colours, other texcoords, joints and weights are `todo!` |
| GltfImport.AttributesReadSupported | chest/src/import/gltf.rs:388-439 | a successful attribute loop saw only supported attributes and left the index data alone |
| GltfImport.PrimitivesReadSupported | chest/src/import/gltf.rs:370-440 | a fully read mesh had only triangle primitives with supported attributes, and one index entry per primitive with an index accessor |
| GltfImport.ReadAttributes | chest/src/import/gltf.rs:388-439 | the loop over one primitive's attributes gives the fold of `AttributeStep`, stopping at the first failure |
| GltfImport.MeshLoaded | chest/src/import/gltf.rs:348-473 | `load_mesh`: a material failure fails the mesh; a loaded mesh has recalculated tangents exactly when no tangent was read, and carries the node's transform |
| GltfImport.LoadMesh | chest/src/import/gltf.rs:348-473 | the mesh is its first primitive's material, the streams of all primitives, recalculated tangents iff none were read, and the node's transform with unit scale by default |
| GltfImport.NodeImported | chest/src/import/gltf.rs:143-177 | one node of the loop: the textures stay, a node with no camera, mesh or light changes nothing, and a mesh index past the document's meshes fails |
| GltfImport.ImportNode | chest/src/import/gltf.rs:143-177 | one node: its camera, loaded as written, replaces the scene's, its mesh adds one mesh, its light adds one light of its kind |
| GltfImport.ImportNodes | chest/src/import/gltf.rs:143-177 | the node loop is the fold of the node step over the nodes, stopping at the first panic; each camera node's camera is loaded as written |
| GltfImport.GltfLoaded | chest/src/import/gltf.rs:91-180 | `load_gltf`: a document that does not parse fails with the parse error, and a successful import had at most one camera |
| GltfImport.LoadGltf | chest/src/import/gltf.rs:91-180 | `load_gltf` is `GltfLoaded`: camera check, linear set, buffers, textures under fresh ids, then the node loop, with cameras loaded as written |
| GltfImport.NodeCamera | chest/src/import/gltf.rs:144-146 | a node with a camera replaces the scene's camera; nothing else touches the camera or the textures |
| GltfImport.NodeCounts | chest/src/import/gltf.rs:148-176 | a mesh node adds one mesh, a light node one light to its kind's list |
| GltfImport.LastCameraNode | chest/src/import/gltf.rs:143-146 | the index of the last node with a camera: no later node has one, and there is none iff no node has a camera |
| GltfImport.NodesCamera | chest/src/import/gltf.rs:143-146 | after the node loop the camera is that of the last camera node, or the starting camera when none has one |
| GltfImport.NodesCounts | chest/src/import/gltf.rs:143-177 | after the node loop there is one mesh per mesh node and one light per light node, by kind |
| GltfImport.CameraCountRule | chest/src/import/gltf.rs:100-113 | more than one camera is refused with the count as `u32`; a loaded document had at most one |
| GltfImport.ImportedSceneShape | chest/src/import/gltf.rs:91-180 | a successful import has one texture per document texture under its fresh id; the last camera node's camera, or the 16:9 default (fov pi/4, near 0.1, far 200) with no camera; one mesh per mesh node; one light per light node of each kind |
| GltfCore.PositionBytesAsWritten | core/src/import/gltf.rs:88-90 | as written the slice is `[offset..length]`: it exists iff offset <= length <= buffer size and has length - offset bytes |
| GltfCore.PositionSliceMisread | core/src/import/gltf.rs:88-90 | in a 32-byte buffer the view of 8 bytes at offset 4 yields 4 bytes, and that of 12 bytes at 16 panics, where the view's own range has its bytes |
| GltfCore.AttributeChecked | core/src/import/gltf.rs:85-104 | as written: an attribute passes iff it is positions, normals or tangents of `f32` and a positions view's slice `[offset..length]` exists and makes whole floats; a slice out of range panics, other attributes are `todo!`, a wrong type fails the assertion |
| GltfCore.AttributeIntended | core/src/import/gltf.rs:85-104 | with the view's own range `[offset..offset + length]`: a positions view passes iff its bytes exist and make whole floats; every other attribute is checked as written |
| GltfCore.AttributeCheckDiffers | core/src/import/gltf.rs:88-90 | in a 32-byte buffer, 12 bytes at offset 16 panic as written and pass as intended; 8 bytes at offset 2 leave 6 bytes as written, no whole floats, and pass as intended |
| GltfCore.AttributesWalked | core/src/import/gltf.rs:81-107 | the attribute walk gets through exactly when every attribute passes |
| GltfCore.LoadGltf | core/src/import/gltf.rs:72-109 | never `Ok`: parse errors and any camera count other than 1 are refused with the count; a failing buffer fails the load, and so does an attribute failing the check as written (positions sliced `[offset..length]`); otherwise `todo!()` panics |
| Flow.Queued | core/src/render/flow.rs:58-65 | the queue for a mesh list holds each mesh in order, with no offset |
| Flow.Prepares | core/src/render/flow.rs:94-102 | the first pass prepares the nodes one by one in order |
| Flow.Draws | core/src/render/flow.rs:94-102 | the second pass draws the nodes one by one in order |
| Flow.PreparesBeforeDraws | core/src/render/flow.rs:94-102 | in `run` no node is prepared once drawing has begun, and node j's prepare comes before its draw |
| Flow.RenderFlow.constructor | core/src/render/flow.rs:30-33 | a new flow has no nodes, no order and no queues |
| Flow.RenderFlow.Add | core/src/render/flow.rs:37-41 | the node goes in under its id with an empty queue, a new id at the end of the order; the id is returned |
| Flow.RenderFlow.QueueMesh | core/src/render/flow.rs:44-48 | only the named node's queue gains `RenderMesh{mesh, offset: None}`; an unknown id changes nothing |
| Flow.RenderFlow.QueueGlobal | core/src/render/flow.rs:51-55 | every node's queue gains the same mesh at its end |
| Flow.RenderFlow.SetQueue | core/src/render/flow.rs:58-65 | the named node's queue becomes the meshes in order without offsets; an unknown id is a no-op |
| Flow.RenderFlow.SetQueueGlobal | core/src/render/flow.rs:68-78 | every node gets an identical copy of the queue |
| Flow.RenderFlow.Build | core/src/render/flow.rs:81-91 | nodes are built in insertion order |
| Flow.RenderFlow.Run | core/src/render/flow.rs:94-102 | `run` prepares every node in order and then draws every node in the same order |
| FrustumSlicing.WithPlanesIsSlice | chest/src/util.rs:54-79 | replacing the planes keeps the variant and every other field and sets exactly the two planes |
| FrustumSlicing.SliceStep | chest/src/util.rs:46-58 | one more slice continues where the last ended, with its width, and the running near becomes near plus the sum of widths so far |
| FrustumSlicing.FrustumSlice | chest/src/util.rs:39-84 | exactly `count` slices of the input's variant and other fields; slice 0 starts at the input near; each slice ends where the next starts; slice i has width lambda d_log + (1 - lambda) d_uni; the last ends at near plus the sum of widths, not at the input far |
| RenderScene.VerticesBytes | core/src/render/scene.rs:67-69 | the area-light vertices take one Vec3 slot each |
| RenderScene.Rebased | core/src/render/scene.rs:63-65 | both vertex indices of an area light move forward by the same t and nothing else changes |
| RenderScene.LightStep | core/src/render/scene.rs:55-73 | one turn of the light loop: every buffer only grows, and only the light's own kind's buffer (with the vertex buffer for an area light) changes |
| RenderScene.Partitioned | core/src/render/scene.rs:55-73 | after the light loop the shared vertex buffer holds exactly one Vec3 slot per area-light vertex |
| RenderScene.VerticesBeforePrefix | core/src/render/scene.rs:60-71 | appending an area light does not change the vertex count before any earlier light |
| RenderScene.AreaPrefix | core/src/render/scene.rs:60-71 | appending an area light leaves the bytes of the earlier area lights and their vertices unchanged |
| RenderScene.AreaVertexCountIsBefore | core/src/render/scene.rs:60-71 | the area-light vertices of all lights are exactly those of the area lights, taken in order |
| RenderScene.DirectionalsPartitioned | core/src/render/scene.rs:55-73 | the directional buffer holds exactly the directional lights, in scene order |
| RenderScene.PointsPartitioned | core/src/render/scene.rs:55-73 | the point buffer holds exactly the point lights, in scene order |
| RenderScene.SpotsPartitioned | core/src/render/scene.rs:55-73 | the spot buffer holds exactly the spot lights, in scene order |
| RenderScene.AreaSnoc | core/src/render/scene.rs:60-71 | one more area light appends its rebased record and its vertices |
| RenderScene.AreasPartitioned | core/src/render/scene.rs:60-71 | the area buffer holds every area light in order, each rebased past the vertices before it, and the vertex buffer holds their vertices in order |
| RenderScene.PartitionedByKind | core/src/render/scene.rs:55-73 | the light loop splits the lights by kind into five buffers, each kind in scene order |
| RenderScene.PushLight | core/src/render/scene.rs:56-72 | one light is appended to the buffer of its kind; an area light is rebased by the vertex count so far and its vertices are pushed first |
| RenderScene.FillLights | core/src/render/scene.rs:49-73 | five fresh storage buffers end holding the bytes of the partitioned lights |
| RenderScene.SyncedCamera | core/src/render/scene.rs:44-47 | after sync the camera buffer holds exactly one transferred camera, uploaded to the device |
| RenderScene.SyncedLights | core/src/render/scene.rs:49-89 | after sync each light buffer holds that kind's lights in scene order, passed through safe_write |
| RenderScene.SyncedOthers | core/src/render/scene.rs:44-89 | sync inserts the six camera and light keys and leaves every other buffer unchanged |
| RenderScene.ApplyEvent | core/src/render/scene.rs:91-127 | an added mesh, material or image missing from the scene panics; removal never panics and leaves the asset absent; an addition leaves it present; a material layout is created only if its type has none; static meshes are ignored; other keys are untouched |
| RenderScene.UnnamedKeysUnchanged | core/src/render/scene.rs:91-128 | keys no event names keep their entries, and layouts are only added |
| RenderScene.RemovalsNeverPanic | core/src/render/scene.rs:114-127 | a run of removal events never panics, whatever it names |
| RenderScene.EventOrderMatters | core/src/render/scene.rs:91-128 | adding then removing an asset leaves it absent; removing then adding leaves it present |
| RenderScene.GpuAssets.constructor | core/src/render/scene.rs:20-34 | new GPU assets have no buffers, textures, bind groups or layouts |
| RenderScene.Scene.constructor | core/src/render/scene.rs:43-128 | a scene holds the camera, lights, meshes, images, materials and pending events that sync reads |
| RenderScene.GpuScene.constructor | core/src/render/scene.rs:36-40 | a new GPU scene has empty assets |
| RenderScene.GpuScene.Handle | core/src/render/scene.rs:91-127 | one event changes the GPU scene exactly as the event specification says, or panics |
| RenderScene.GpuScene.InsertLights | core/src/render/scene.rs:44-89 | the buffer map gains the camera and five light buffers as specified; textures, bind groups and layouts are unchanged |
| RenderScene.ApplyEvents | core/src/render/scene.rs:91-128 | the events in order, stopping at the first panic: the only panic is a missing scene entry, and layouts are only ever added |
| RenderScene.GpuScene.DrainEvents | core/src/render/scene.rs:91-128 | events are applied in order and drained, stopping at the first panic; the scene's other contents are unchanged |
| RenderScene.GpuScene.Sync | core/src/render/scene.rs:43-131 | sync inserts the camera and light buffers, then drains the events in order; it panics only on a missing key |
| RenderScene.ApplyEventsSnoc | core/src/render/scene.rs:91-128 | one more drained event after a prefix that did not panic is that event applied to the result |
| RenderScene.ApplyEventsStopsAtPanic | core/src/render/scene.rs:91-128 | once a prefix of the events panics, the remaining events add nothing |
| ShadowMapping.Cascades | chest/src/node/shadow_mapping.rs:198-209 | the number of cascades is at least one under every partitioning |
| ShadowMapping.RequireShaderDefs | chest/src/node/shadow_mapping.rs:193-210 | adds exactly `SHADOW_CASCADES` (set to the cascade count unless the filter overrides it) and the shadow filter's define, keeping every other define |
| ShadowMapping.DirectionalLayers | chest/src/node/shadow_mapping.rs:325-343 | the directional map has one layer per cascade of every directional light, and at least one layer when there are none |
| ShadowMapping.PointLayers | chest/src/node/shadow_mapping.rs:352-360 | the point map has six layers per point or spot light, and at least six when there are none |
| ShadowMapping.DirSlots | chest/src/node/shadow_mapping.rs:583-607 | the directional loop's views: `n` cascades for each directional light |
| ShadowMapping.CascadeSlots | chest/src/node/shadow_mapping.rs:587-604 | one view per cascade of a directional light |
| ShadowMapping.FaceSlots | chest/src/node/shadow_mapping.rs:609-625 | six views per point or spot light |
| ShadowMapping.CubeSlots | chest/src/node/shadow_mapping.rs:609-647 | six views per light of the list |
| ShadowMapping.Schedule | chest/src/node/shadow_mapping.rs:583-647 | `prepare` produces one view per cascade of each directional light and six per point or spot light |
| ShadowMapping.DirSlotAt | chest/src/node/shadow_mapping.rs:583-607 | cascade k of the j-th directional light is the view at position j*n+k and renders to that layer of the directional map |
| ShadowMapping.CubeSlotAt | chest/src/node/shadow_mapping.rs:609-627 | face f of the i-th light renders to layer 6(base+i)+f of the point map |
| ShadowMapping.ScheduleCascadeAt | chest/src/node/shadow_mapping.rs:583-607 | in the whole schedule, cascade k of directional light j sits at position j*n+k with layer j*n+k |
| ShadowMapping.ScheduleFaceAt | chest/src/node/shadow_mapping.rs:609-647 | point lights and spot lights share one layer counter: face f of the i-th spot light renders to layer 6(\|points\|+i)+f |
| ShadowMapping.LayersArePositions | chest/src/node/shadow_mapping.rs:325-647 | every view's layer is its position among its map's views, so no two views share a layer, and each lies inside the map `build` allocates |
| ShadowMapping.Starts | chest/src/node/shadow_mapping.rs:602-642 | one offset per view |
| ShadowMapping.DirViewsSnoc | chest/src/node/shadow_mapping.rs:602-606 | inserting a light's cascade views into `directional_views` extends the map built for the lights before it |
| ShadowMapping.FaceViewsSnoc | chest/src/node/shadow_mapping.rs:626 | inserting a light's six face views into `point_views` extends the map built for the lights before it |
| ShadowMapping.CubeSlotsSnoc | chest/src/node/shadow_mapping.rs:609-627 | one more light appends its six faces to the schedule |
| ShadowMapping.CubeStep | chest/src/node/shadow_mapping.rs:609-627 | one iteration of the point loop extends the views, the camera bytes and the view map consistently |
| ShadowMapping.FaceStep | chest/src/node/shadow_mapping.rs:612-623 | one face of the cube appends its slot and its camera bytes |
| ShadowMapping.DirSlotsSnoc | chest/src/node/shadow_mapping.rs:583-607 | one more directional light appends its cascades to the schedule |
| ShadowMapping.EmitStep | chest/src/node/shadow_mapping.rs:591-606 | emitting one view adds its layer view under its id, appends its camera, and records as its offset the byte length written before it |
| ShadowMapping.LightViewsSplit | chest/src/node/shadow_mapping.rs:649-664 | the light-view uniform is the cascade-view buffer followed by the point-light-view buffer |
| ShadowMapping.OffsetsLocateViews | chest/src/node/shadow_mapping.rs:602-642 | the offset of view v points at exactly that view's camera inside the light-view buffer |
| ShadowMapping.ViewMapAt | chest/src/node/shadow_mapping.rs:591-625 | the id of view v maps to the layer view of its own map and layer |
| ShadowMapping.DirViewsAt | chest/src/node/shadow_mapping.rs:606 | `directional_views` maps each directional light to the ids of its own cascade views |
| ShadowMapping.FaceViewsAt | chest/src/node/shadow_mapping.rs:626 | `point_views` maps each point or spot light to the ids of its own six face views |
| ShadowMapping.PoissonLayout | chest/src/node/shadow_mapping.rs:507-530 | the Poisson table is the 2D samples (z and w zero) followed by the 3D samples (w zero), each list cut to the sample count, every coordinate moved from [0,1] to [-1,1] |
| ShadowMapping.PoissonInRange | chest/src/node/shadow_mapping.rs:509-524 | samples drawn in [0,1] land in [-1,1] and w is zero |
| ShadowMapping.DrawViewsSticky | chest/src/node/shadow_mapping.rs:784 | once a draw step panics, the later views change nothing |
| ShadowMapping.DrawLightsSticky | chest/src/node/shadow_mapping.rs:807-825 | once a light's draw panics, the later lights change nothing |
| ShadowMapping.Expected | chest/src/node/shadow_mapping.rs:766-802 | the passes for the first k views bind, in order, each view's texture view and offset |
| ShadowMapping.DrawViewsOk | chest/src/node/shadow_mapping.rs:766-802 | drawing a run of views whose ids are found records exactly their expected passes |
| ShadowMapping.DrawLightsSnoc | chest/src/node/shadow_mapping.rs:817-825 | the light loop ends with the last light's views |
| ShadowMapping.DrawCubesInOrder | chest/src/node/shadow_mapping.rs:817-825 | the point and spot loop draws the six faces of each light in schedule order |
| ShadowMapping.DrawDirsInOrder | chest/src/node/shadow_mapping.rs:807-815 | the directional loop draws each light's cascades in schedule order |
| ShadowMapping.DrawReadsViewsInOrder | chest/src/node/shadow_mapping.rs:766-825 | `draw` reads the views in the order `prepare` emitted them, so its v-th pass uses the v-th offset |
| ShadowMapping.DistinctParts | chest/src/node/shadow_mapping.rs:609-647 | points and spots with distinct ids are each distinct and disjoint |
| ShadowMapping.PreparedFaces | chest/src/node/shadow_mapping.rs:609-647 | after `prepare`, each point or spot light maps to its own six face view ids |
| ShadowMapping.PreparedTextureViews | chest/src/node/shadow_mapping.rs:591-625 | after `prepare`, every view id maps to the layer view of its own layer |
| ShadowMapping.PreparedDirViews | chest/src/node/shadow_mapping.rs:583-607 | with one cascade, each directional light maps to the one view id at its position |
| ShadowMapping.PreparedCubeViews | chest/src/node/shadow_mapping.rs:609-647 | each point or spot light maps to the six ids starting at 6i past the directional views |
| ShadowMapping.PreparedLookups | chest/src/node/shadow_mapping.rs:583-647 | every lookup `draw` makes into the maps `prepare` filled succeeds |
| ShadowMapping.DrawPreparedViews | chest/src/node/shadow_mapping.rs:747-828 | drawing right after `prepare` records one pass per view, each with its own texture view and offset |
| ShadowMapping.ExpectedLayers | chest/src/node/shadow_mapping.rs:766-802 | those passes render into each view's own layer of its own map |
| ShadowMapping.PrepareThenDraw | chest/src/node/shadow_mapping.rs:540-828 | with fresh offsets, `draw` after `prepare` succeeds and its v-th pass renders view v into its own layer while binding the offset of view v's camera |
| ShadowMapping.FreshWriteBinds | chest/src/node/shadow_mapping.rs:570-572 | a newly created buffer gets a device buffer on write exactly when it holds bytes |
| ShadowMapping.CameraRawNonEmpty | chest/src/node/shadow_mapping.rs:649-664 | the light-view buffer is non-empty exactly when there is a view |
| ShadowMapping.Disk2Snoc | chest/src/node/shadow_mapping.rs:509-516 | the encoded 2D table grows by one encoded sample per sample |
| ShadowMapping.Disk3Snoc | chest/src/node/shadow_mapping.rs:518-524 | the encoded 3D table grows by one encoded sample per sample |
| ShadowMapping.AppendPlanar | chest/src/node/shadow_mapping.rs:509-516 | the 2D loop appends the encoding of every 2D sample, centred, in order |
| ShadowMapping.AppendSpherical | chest/src/node/shadow_mapping.rs:518-524 | the 3D loop appends the encoding of every 3D sample, centred, in order |
| ShadowMapping.PoissonTable | chest/src/node/shadow_mapping.rs:507-527 | the raw table is the encoding of the Poisson disk |
| ShadowMapping.ShadowAssets.constructor | core/src/render/scene.rs:20-34 | the asset store starts empty |
| ShadowMapping.ShadowMappingNode.constructor | chest/src/node/shadow_mapping.rs:94-99 | a node starts with no views and no offsets |
| ShadowMapping.ShadowMappingNode.CreatePipelines | chest/src/node/shadow_mapping.rs:224-316 | adds the light-view layout and nothing else |
| ShadowMapping.ShadowMappingNode.Build | chest/src/node/shadow_mapping.rs:318-538 | creates both shadow maps with the layer counts above, their array views, the two samplers, the layout, the Poisson table and the config buffer, and leaves the maps ready |
| ShadowMapping.ShadowMappingNode.UploadTables | chest/src/node/shadow_mapping.rs:526-537 | stores the written Poisson storage buffer and config uniform |
| ShadowMapping.ShadowMappingNode.EmitView | chest/src/node/shadow_mapping.rs:591-604 | one view: its layer view inserted, its camera appended, its offset pushed |
| ShadowMapping.ShadowMappingNode.EmitCascade | chest/src/node/shadow_mapping.rs:587-606 | one directional light: its cascade views emitted and their ids recorded |
| ShadowMapping.ShadowMappingNode.EmitCascades | chest/src/node/shadow_mapping.rs:583-607 | the directional loop emits every cascade view and fills `directional_views` |
| ShadowMapping.ShadowMappingNode.EmitFace | chest/src/node/shadow_mapping.rs:612-623 | one face: its view emitted and its camera written to the point-light buffer |
| ShadowMapping.ShadowMappingNode.EmitFaceAt | chest/src/node/shadow_mapping.rs:612-623 | after face f, the first f+1 faces are emitted and their ids recorded |
| ShadowMapping.ShadowMappingNode.EmitFaces | chest/src/node/shadow_mapping.rs:612-623 | the face loop emits all six faces of a light |
| ShadowMapping.ShadowMappingNode.EmitCube | chest/src/node/shadow_mapping.rs:609-626 | one point or spot light: six faces emitted and its ids inserted into `point_views` |
| ShadowMapping.ShadowMappingNode.EmitCubeAt | chest/src/node/shadow_mapping.rs:609-627 | after light i, the lights so far are emitted and recorded |
| ShadowMapping.ShadowMappingNode.EmitCubes | chest/src/node/shadow_mapping.rs:609-647 | one light loop emits every light's faces and fills `point_views` |
| ShadowMapping.ShadowMappingNode.EmitPointLights | chest/src/node/shadow_mapping.rs:609-647 | points then spots, sharing the point-light buffer and the layer counter |
| ShadowMapping.ShadowMappingNode.EmitViews | chest/src/node/shadow_mapping.rs:570-647 | the three loops emit the whole schedule |
| ShadowMapping.ShadowMappingNode.UploadViews | chest/src/node/shadow_mapping.rs:649-664 | writes the cascade, point-light and light-view buffers |
| ShadowMapping.ShadowMappingNode.MakeBindGroups | chest/src/node/shadow_mapping.rs:666-744 | the bind groups are made exactly when everything they bind exists |
| ShadowMapping.ShadowMappingNode.Prepare | chest/src/node/shadow_mapping.rs:540-745 | with the maps built, emits every view, writes the buffers, makes the bind groups, and appends this frame's offsets to earlier ones; otherwise changes nothing |
| ShadowMapping.ShadowMappingNode.PrepareFresh | chest/src/node/shadow_mapping.rs:540-745 | as `prepare`, with `offsets` holding this frame's offsets only |
| ShadowMapping.DrawAll | chest/src/node/shadow_mapping.rs:747-828 | what `draw` records: nothing without the light-view bind group; its only panics are a missing key, an offset index past the end and, when unpartitioned, a directional light without views |
| ShadowMapping.ShadowMappingNode.Draw | chest/src/node/shadow_mapping.rs:747-828 | records the passes the draw specification gives, or the panic of a missing view or offset, and nothing without the light-view bind group |
| ShadowMapping.ShadowMappingNode.DrawEach | chest/src/node/shadow_mapping.rs:807-825 | one light loop of `draw`, every view of every light in order |
| ShadowMapping.StaleOffsetAfterLightChange | chest/src/node/shadow_mapping.rs:602-784 | after a light is added between frames, the appended offsets make `draw` bind a stale offset for a view |
| ShadowMapping.Bounds | chest/src/node/shadow_mapping.rs:139-149 | the min/max fold bounds every corner, and starts from `Vec3::MAX`/`Vec3::MIN` |
| ShadowMapping.InView | chest/src/node/shadow_mapping.rs:134-136 | one transformed corner per corner |
| ShadowMapping.CascadeView | chest/src/node/shadow_mapping.rs:114-176 | the cascade looks from the corners' centre along the reversed light direction, its orthographic box is centred on the view axis and never inside out, `position_ws` is the centre (perspective) or the light direction (orthographic), and `exposure` is the slice's near plane |
| ShadowMapping.CascadeExposuresAreSplits | chest/src/node/shadow_mapping.rs:166-174 | over contiguous slices the cascades' `exposure` fields are the split depths: the camera's near plane, then each previous slice's far plane |
| LegacyNodes.CameraCount | core/src/scene/resource.rs:85-127 | a directional light gives one camera, a point or spot light six, one per cube face |
| LegacyNodes.CountOf | chest/src/node.rs:748-784 | the number of lights of one kind, which never exceeds the number of lights |
| LegacyNodes.DirectionalMapLayers | chest/src/node.rs:749-762 | the directional map has one layer per directional light and never fewer than one |
| LegacyNodes.PointMapLayers | chest/src/node.rs:771-784 | as written, the point map has six layers per point light and at least six; spot lights add none |
| LegacyNodes.PointMapLayersFixed | chest/src/node.rs:771-784 | corrected: six layers per point and per spot light, and at least six |
| LegacyNodes.PreparedStep | chest/src/node.rs:932-971 | one more light adds exactly its views under its id and its cameras' bytes after the earlier ones |
| LegacyNodes.PreparedKeys | chest/src/node.rs:932-971 | after the light loop every light id has views and no other id does |
| LegacyNodes.PreparedLookup | chest/src/node.rs:932-971 | the views stored for the k-th light are the ones made when it was reached; later lights never overwrite them |
| LegacyNodes.PreparedLayers | chest/src/node.rs:938-971 | the n-th directional light renders into layer n; face i of the n-th point-or-spot light renders into layer 6n+i |
| LegacyNodes.LayersFit | chest/src/node.rs:938-971 | once the point map is sized for point and spot lights, every view prepare creates names a layer inside its map |
| LegacyNodes.PointMapTooSmall | chest/src/node.rs:771-784 | with one point light followed by one spot light, the spot's first face asks for layer 6 of a six-layer map |
| LegacyNodes.OffsetsLocateCameras | chest/src/node.rs:930-936 | every recorded offset is where that camera's bytes begin in the uploaded light-view buffer |
| LegacyNodes.MeshDraws | chest/src/node.rs:1037-1044 | one vertex count per queued mesh, in order; a mesh without a buffer ends draw; a buffer with no device buffer or with partial vertices panics |
| LegacyNodes.Passes | chest/src/node.rs:1019-1045 | one pass per view of the light, each drawing the whole mesh list at that view's offset |
| LegacyNodes.UnfinishedMeshesSubmitNothing | chest/src/node.rs:1037-1048 | if the mesh loop returns early, draw returns before the encoder is submitted, so no pass reaches the queue |
| LegacyNodes.DrawLightsComplete | chest/src/node.rs:1014-1048 | when every light has views and the mesh loop finishes, every view of every light gets its pass, light after light |
| LegacyNodes.ShadowMappingNode.constructor | chest/src/node.rs:629-633 | a new node has no pipeline and no shadow-map views |
| LegacyNodes.ShadowMappingNode.PushLight | chest/src/node.rs:933-971 | pushes the light's cameras and returns one view per camera with the layer and offset it gets |
| LegacyNodes.ShadowMappingNode.PushLightAt | chest/src/node.rs:932-972 | one turn of the light loop: the views go under the light's id and the matching counter advances |
| LegacyNodes.PreparedViews | chest/src/node.rs:932-973 | the views `prepare` builds for the lights: every light id has one view (directional) or six (point, spot) |
| LegacyNodes.ShadowMappingNode.PushLights | chest/src/node.rs:932-973 | the light loop yields the views and buffer given by the prepared specification for all lights |
| LegacyNodes.ShadowMappingNode.Prepare | chest/src/node.rs:895-997 | the views are cleared and rebuilt for the current lights; the light-view buffer is written, stored and bound |
| LegacyNodes.DrawLights | chest/src/node.rs:1013-1047 | the light loop of `draw`: it panics only on a light without views or on the mesh loop's panic, submits nothing only when the mesh loop ends early, and panics on the first light when none has views |
| LegacyNodes.ShadowMappingNode.Draw | chest/src/node.rs:999-1049 | nothing without the light-view bind group or, when there are lights, the pipeline; otherwise the passes of each light in scene order |
| LegacyNodes.PrepareThenDraw | chest/src/node.rs:895-1049 | draw right after prepare never panics on a light's views, and every camera of every light gets its pass |
| LegacyNodes.ResetBuffer | chest/src/node.rs:319-324 | the material buffer starts empty: an existing one is cleared, otherwise a new uniform buffer is inserted |
| LegacyNodes.LaidOutQueue | chest/src/node.rs:326-331 | meshes stay in place; each with a known material gets an offset and the others keep theirs; bytes are pushed only if some material is known |
| LegacyNodes.LaidOutOffsetAt | chest/src/node.rs:326-331 | a known mesh's offset equals the number of bytes pushed before it |
| LegacyNodes.LaidOutRawPrefix | chest/src/node.rs:326-331 | the bytes pushed before a known mesh, followed by its uniform, form a prefix of the buffer |
| LegacyNodes.MaterialOffsets | chest/src/node.rs:319-331 | each known mesh's offset is where its material's uniform begins in the material buffer |
| LegacyNodes.SlotsDisjoint | chest/src/node.rs:326-331 | of two known meshes, the later one gets the later slot and their slots do not overlap |
| LegacyNodes.MaterialBufferUploaded | chest/src/node.rs:319-338 | the material buffer holds only this frame's uniforms, and after write the device holds those bytes |
| LegacyNodes.BoundGroupsSound | chest/src/node.rs:340-345 | the loop makes groups only for known queued materials, each one the material's own group over the material buffer |
| LegacyNodes.BoundGroupsComplete | chest/src/node.rs:340-345 | once everything is in place the loop never panics and every known queued material gets its group |
| LegacyNodes.BoundGroupsStop | chest/src/node.rs:340-345 | once a group panics, the rest of the queue adds nothing |
| LegacyNodes.PbrNode.constructor | chest/src/node.rs:146-150 | a new node has no pipeline and holds the material type's key it is given, the key `build` assigns at line 166 (the derived `Default` holds the nil uuid until then) |
| LegacyNodes.PbrNode.LayOutOne | chest/src/node.rs:326-331 | one turn of the offset loop extends the laid-out prefix by one mesh |
| LegacyNodes.LaidOut | chest/src/node.rs:319-331 | the offset loop: one queue entry per mesh, and no bytes when no material was pushed |
| LegacyNodes.PbrNode.LayOut | chest/src/node.rs:319-331 | the material buffer is reset, then every known mesh gets its offset as in the layout specification |
| LegacyNodes.BoundGroups | chest/src/node.rs:340-345 | the bind-group loop: groups only for known materials, and a panic only from a missing layout (`unwrap`) or a missing texture (map index) |
| LegacyNodes.PbrNode.BindMaterials | chest/src/node.rs:340-345 | the bind-group loop gives each known queued material its group, stopping at the first panic |
| LegacyNodes.PbrNode.WriteMaterials | chest/src/node.rs:319-338 | the uniforms are laid out and the material buffer is written to the device |
| LegacyNodes.PbrNode.Prepare | chest/src/node.rs:311-346 | offsets are laid out and written, then each queued material is bound over the written buffer |
| LegacyNodes.PbrNode.Draw | chest/src/node.rs:348-426 | nothing without the camera and light groups, the light-view buffer, a shadow-map binding and the pipeline; otherwise one pass over the queue |
| LegacyNodes.PbrMeshDraws | chest/src/node.rs:411-422 | a mesh without a material group or vertex buffer is skipped; a missing offset, device buffer or partial vertex panics |
| LegacyNodes.PbrMeshDrawsAll | chest/src/node.rs:411-422 | when every queued mesh has a group, an offset and a drawable buffer, each is drawn in order with its own offset |
| LegacyNodes.PreparedQueueDraws | chest/src/node.rs:311-426 | after prepare, every queued mesh with a known material and a drawable buffer is drawn with its material's offset |
| Bloom.RequireShaderDefs | chest/src/node/bloom.rs:118-122 | `SOFT_THRESHOLD` is defined iff the threshold is positive; every other define is kept |
| Bloom.LocalShaderDefs | chest/src/node/bloom.rs:124-131 | no local define for the first shader; `FIRST_DOWNSAMPLE` on the second iff fireflies are eliminated |
| Bloom.DefaultDefines | chest/src/node/bloom.rs:50-61 | the default configuration asks for both the soft threshold and the firefly-eliminating first downsample |
| Bloom.ILog2 | chest/src/node/bloom.rs:310 | `ilog2` of a positive number is the exponent of its highest set bit (2^e <= d < 2^(e+1)) |
| Bloom.ILog2Unique | chest/src/node/bloom.rs:310 | that exponent is the only one whose power brackets the number |
| Bloom.MipCount | chest/src/node/bloom.rs:310 | the level count is max(ilog2 d, 2) - 1, at least one; a zero dimension panics |
| Bloom.ILog2Bounds | chest/src/node/bloom.rs:310 | from 4 on the exponent is at least 2, below 8 at most 2, so small dimensions give one level |
| Bloom.MipCountBounded | chest/src/node/bloom.rs:310 | a `u32` dimension gives at most 30 levels |
| Bloom.DefaultMipCount | chest/src/node/bloom.rs:310 | the default dimension 512 gives eight levels |
| Bloom.RoundToU32 | chest/src/node/bloom.rs:317-318 | `round` (half away from zero) then the saturating `as u32` cast |
| Bloom.RoundWhole | chest/src/node/bloom.rs:317-318 | a whole number in range rounds to itself |
| Bloom.PyramidSize | chest/src/node/bloom.rs:311-320 | both sides fit a `u32`; with a zero side the scale is infinite, so a zero side becomes 0 (NaN cast) and a non-zero one `u32::MAX` |
| Bloom.PyramidShape | chest/src/node/bloom.rs:311-320 | the shorter target side becomes exactly d and the longer one at least d |
| Bloom.ScaledSides | chest/src/node/bloom.rs:311-318 | scaled by d / short, the short side rounds to d and the long one to at least d |
| Bloom.DefaultPyramidFullHd | chest/src/node/bloom.rs:311-320 | a 1920 by 1080 target with the default dimension gives a 910 by 512 pyramid |
| Bloom.PrecomputedFilter | chest/src/node/bloom.rs:341-349 | the filter starts with the threshold t, its knee start plus half its width is t, and the last component times (knee + 0.00001) is 0.25; a zero divisor gives no finite filter |
| Bloom.DefaultFilter | chest/src/node/bloom.rs:341-349 | the default filter is threshold 0.8, knee start 0.08, knee width 1.44 |
| Bloom.Clamp01 | chest/src/node/bloom.rs:81 | `clamp(0, 1)` lies in [0, 1] and is the identity there |
| Bloom.BlendBaseRange | chest/src/node/bloom.rs:79 | on the pyramid's levels the base of the power lies in [1/2, 1], and mirrored levels share it |
| Bloom.BlendFactor | chest/src/node/bloom.rs:71-91 | for any level, in range or past the top: every numeric factor has four equal components in [0, 1]. On a pyramid's own levels a one-level pyramid gives not-a-number unless the scatter is 0 (`powf(NaN, 0) = 1` then gives the clamped intensity), and a larger pyramid gives the clamped power of the base times the intensity. Past a one-level pyramid's level the base is minus infinity: not-a-number only for a positive scatter with zero intensity, otherwise 0 or 1 when the scatter is not 0. Past 1.5 times a larger pyramid's top level the base is negative, and a non-integer scatter gives not-a-number |
| Bloom.BlendBaseSign | chest/src/node/bloom.rs:78 | with two or more levels the base is at least 1/2 on the pyramid's levels and negative past 1.5 times its top level |
| Bloom.BlendFactorSymmetric | chest/src/node/bloom.rs:71-91 | mirrored levels get the same factor, so the first upsample and the final pass blend alike |
| Bloom.MiddleLevelBlendsFully | chest/src/node/bloom.rs:71-91 | with unit intensity the middle level (when the top index is even) gets factor 1 |
| Bloom.Describe | chest/src/node/bloom.rs:193-300 | downsampling pipelines run `downsample` of the first shader, upsampling ones `upsample` of the second; only the final one targets the frame format and blends by the constant |
| Bloom.ConstantBlendBetween | chest/src/node/bloom.rs:287-298 | with a constant in [0, 1] each colour channel lands between the bloom's and the frame's, and the frame keeps its alpha |
| Bloom.DownsamplePass | chest/src/node/bloom.rs:429-468 | a downsample reads one level and writes the next smaller one, clearing it, with no blend constant |
| Bloom.UpsamplePass | chest/src/node/bloom.rs:470-531 | an upsample reads one level and writes the next larger one, clearing it, blended by the factor of the level it reads |
| Bloom.FinalPass | chest/src/node/bloom.rs:533-555 | the final pass reads level 0 into the frame's view, loading what the frame holds, blended by the factor of level 0 |
| Bloom.Schedule | chest/src/node/bloom.rs:390-555 | the passes of `draw` for an n-level pyramid: 2n of them, the first downsample first and the final pass last |
| Bloom.ScheduleIndex | chest/src/node/bloom.rs:390-555 | `draw` submits 2n passes: first downsample, downsamples 1..n-1, upsamples n-1..1, final pass |
| Bloom.ScheduleChained | chest/src/node/bloom.rs:390-555 | each pass samples what the one before rendered, from the frame back to the frame; only the last loads instead of clearing |
| Bloom.ScheduleLevels | chest/src/node/bloom.rs:429-504 | level m is rendered on the way down and, below the top, on the way up with the factor of level m + 1 |
| Bloom.OnlyFinalBlendApplies | chest/src/node/bloom.rs:503-550 | only the final pass's pipeline blends by the constant, so only factor(0) takes effect |
| Bloom.BloomNode.constructor | chest/src/node/bloom.rs:50-68 | a new node has the default configuration and no data |
| Bloom.BloomNode.CalculateBlendFactor | chest/src/node/bloom.rs:71-91 | the node's factor for any level, including levels past the pyramid's top, is `BlendFactor` of its configuration and level count; without built data the `unwrap` panics |
| Bloom.BloomNode.Build | chest/src/node/bloom.rs:133-363 | the node's data holds the level count, the pyramid size and a written uniform buffer holding the filter |
| Bloom.BloomNode.Draw | chest/src/node/bloom.rs:365-557 | nothing before `build`; panics without a bound uniform or with no levels; otherwise the passes are exactly `Schedule` |
| Bloom.BuiltNodeDraws | chest/src/node/bloom.rs:133-557 | a node built with a positive dimension draws the whole schedule |
| Helper.WithTranslation | core/src/render/helper.rs:249-253 | `with_translation` changes only the translation |
| Helper.WithRotation | core/src/render/helper.rs:255-259 | `with_rotation` changes only the rotation |
| Helper.WithScale | core/src/render/helper.rs:261-265 | `with_scale` changes only the scale |
| Helper.BuildersCommute | core/src/render/helper.rs:249-265 | the builders set disjoint fields, so they commute, and a second call of one overrides the first |
| Helper.ComputeMatrixIgnoresScale | core/src/render/helper.rs:217-220 | `compute_matrix` ignores the scale: it equals the matrix of the same transform with unit scale |
| Helper.LocalMove | core/src/render/helper.rs:222-225 | `local_move` moves the translation by the delta taken through the inverse rotation and changes nothing else |
| Helper.Rotate | core/src/render/helper.rs:227-229 | `rotate` applies the new rotation after the current one and keeps translation and scale |
| Helper.LocalRotate | core/src/render/helper.rs:236-238 | `local_rotate` applies the new rotation before the current one and keeps translation and scale |
| Helper.RotationsCompose | core/src/render/helper.rs:201-242 | rotations about a world axis compose on the left, about a local axis on the right, and neither moves the transform |
| Helper.LookingAt | core/src/render/helper.rs:267-278 | `looking_at`/`look_at` rebuild the rotation to face the target from the current translation and keep translation and scale |
| Helper.LookingAtThenMove | core/src/render/helper.rs:267-278 | the rotation built forgets the earlier rotation, and a later `with_translation` keeps it, built from the old eye |
| Helper.ProjectionMatrix | core/src/render/helper.rs:55-124 | each projection's matrix is glam's matching constructor, with near and far passed in stored order |
| Helper.Symmetric | core/src/render/helper.rs:102-111 | `symmetric(w, h, n, f)` spans width w and height h centred on the axis (left = -right, bottom = -top), near and far unchanged |
| Helper.DefaultProjectionFacts | core/src/render/helper.rs:49-82 | the default projection is perspective (pi/4, 1, 0.1, 1000) |
| Helper.CameraToGpu | core/src/render/helper.rs:32-41 | `Camera` to `GpuCamera` copies the translation to `position_ws` and ev100 to `exposure`; the view is the inverse placement, the projection its matrix |
| Helper.CameraIgnoresScale | core/src/render/helper.rs:32-41 | two cameras differing only in scale give the same `GpuCamera` |
| Helper.DefaultCameraToGpu | core/src/render/helper.rs:287-291 | the default camera has exposure 9.7, position zero and the default perspective |
| Helper.DirectionalLightView | core/src/render/helper.rs:126-135 | the directional view looks along the light from the origin with +Y up, with position zero and exposure 0 |
| Helper.DirectionalViewFacts | core/src/render/helper.rs:126-135 | it depends on the direction only; its box is the symmetric 32 x 32 one and near lies beyond far |
| Helper.CubeViews | core/src/render/helper.rs:137-156 | six views, view i built from `CUBE_MAP_FACES[i]`, each at the light position with exposure 0 and the same projection |
| Helper.CubeViewsFacts | core/src/render/helper.rs:137-156 | the six views are pairwise different, and each face's rotation is the same wherever the light stands |
| Helper.PointLightView | core/src/render/helper.rs:137-156 | the point light's six views are `CubeViews` of its position |
| Helper.SpotLightView | core/src/render/helper.rs:158-168 | the spot light's views are those of a point light at its position, so direction and angles are ignored |
| CameraControl.KeyAxis | gui/src/scene.rs:63-71 | exactly W, S, A, D, Q and E drive an axis, each with a direction of +1 or -1 |
| CameraControl.WithComponent | gui/src/scene.rs:64-69 | setting one velocity component changes that component only |
| CameraControl.BoostFactor | gui/src/scene.rs:75 | the speed multiplier is `config.boost` while boosting, else 1 |
| CameraControl.Clamp | gui/src/scene.rs:116 | `clamp` lands in [lo, hi], is the identity inside and gives the nearer bound outside |
| CameraControl.MovedTarget | gui/src/scene.rs:76-80 | `update` moves only the target's translation; its rotation and scale stay |
| CameraControl.Eased | gui/src/scene.rs:82-89 | easing the camera towards the target keeps its scale |
| CameraControl.MouseRotation | gui/src/scene.rs:113-118 | the new rotation is yaw about Y times pitch about X, the pitch within [-1.54, 1.54] |
| CameraControl.MouseRotationKeepsSmallPitch | gui/src/scene.rs:116 | a pitch already inside the limit is kept exactly and the yaw is never limited |
| CameraControl.MovementKeysDistinct | gui/src/scene.rs:63-71 | the six movement keys drive six different axis/direction pairs, W/S, A/D and Q/E opposite on one axis |
| CameraControl.ReleaseStopsAxis | gui/src/scene.rs:58-70 | releasing a key zeroes its axis even while the opposite key is still held |
| CameraControl.SteerKeepsOtherAxes | gui/src/scene.rs:63-71 | a key event never changes the other axes; a key with no axis changes nothing |
| CameraControl.ControllableCamera.constructor | gui/src/scene.rs:39-48 | the target is the camera's transform, the velocity is zero, neither flag is set |
| CameraControl.ControllableCamera.KeyboardControl | gui/src/scene.rs:50-72 | left Shift sets `on_boost` to pressed and touches no velocity; movement keys set their axis to -t/+t with t = 1 pressed, 0 released; nothing else changes |
| CameraControl.ControllableCamera.Update | gui/src/scene.rs:74-95 | the target moves by the rotated velocity times sensitivity, boost and delta; the camera eases to it; velocity and flags stay |
| CameraControl.ControllableCamera.MouseControl | gui/src/scene.rs:97-109 | the left button sets `on_rotate` to pressed; other buttons change nothing |
| CameraControl.ControllableCamera.MouseMove | gui/src/scene.rs:111-120 | no effect unless rotating; otherwise only the target's rotation changes, to `MouseRotation` |
| CameraControl.RestingTargetStays | gui/src/scene.rs:76-80 | at zero velocity the target does not move, whatever the boost |

## Left out

- The WGSL shaders: cascade selection, PCF/PCSS filtering, the BRDF and the tonemapping curves live in shader files that are not part of this model.
- All wgpu device, queue, pipeline, sampler and command-encoder calls. A texture view is modelled as the map and layer it selects. A bind group is modelled as its id, or as the buffer it binds. A render pass is modelled as the pipeline, views, offset and blend constant it sets. The `target.depth.as_ref().unwrap()` panic in `PbrNode::draw` (chest/src/node.rs:396) sits inside such a pass and is not modelled.
- Shader composition through naga_oil, and the proc-macro token plumbing: only the naming rule and the arm-selection rule of `expand_shader_def_enum` are modelled.
- Floating-point numerics: floats are unbounded reals. `powf`, `log2` of non-powers, reciprocals, `look_to`/`look_at`, `inverse`, the frustum corners of a slice and the cascade view's action on a point are parameters or symbolic terms, so rounding is not stated. NaN and infinity are stated only where the model spells them out (`Bloom.BlendFactor`, `Bloom.PyramidSize`).
- The bytes of GPU records: `bytemuck` encodings of cameras, lights, materials and vertex scalars are parameters (one encoding function per record kind), and alignment and padding are not modelled.
- I/O and decoding: the obj, gltf, image, png and dds crates, base64 (RFC 4648), percent-decoding (RFC 3986), UTF-8 decoding and `std::fs::read` are parameters. Texture readback (`save_color_texture_as_image`) is not modelled.
- Index buffers: `insert_indices` and `draw_indexed` are not modelled. A draw is recorded by the mesh and the view it uses.
- The gltf crate's own validation of the JSON document. An index that `json.get(..).unwrap()` does not resolve is modelled as the `unwrap` panic.
- In `core/src/import/gltf.rs`, the meshes' primitives are flattened into one attribute list in the order the nested loops visit them.
- `core/src/buffer.rs` `push` returns no offset. It shares the staging model with `core-dep/src/resource/buffer.rs`, whose `push` does.
- The `Scene` that carries `asset_events` is not part of this model. Its events are modelled through `GpuScene::sync` in `core/src/render/scene.rs` only.
- UI and concurrency: the winit event loop, the loader thread and the mutex in `gui/src/app.rs`, `gui/src/main.rs` and `gui/src/render/mod.rs`. Only the camera controller of `gui/src/scene.rs` is modelled, with time steps as parameters.
- Render nodes whose host code only copies configuration into GPU objects (pbr.rs, skybox.rs, the prepasses other than motion vectors, depth of field, motion blur, lens flare, ssao), and `core/src/node.rs`, `core/src/builtin_pipeline.rs` and the GPU upload glue under `core/src/scene/render/`.
- Unsafe transmutes (`struct_to_bytes`, `core/src/util/ext.rs`) and trivial colour conversions into `Vec4`.
- Tangent.LeftoverVertex: the model's arithmetic is exact, so for a vertex past the last whole triangle it gives the normal as tangent. In `f32` the rejection from a zero tangent divides by zero and gives NaN components.
- MeshLayout.Mesh.VertexBufferData: does not state that the padding bytes of a row stay zero. It states only where each element's bytes go.
- Bloom.BloomNode.Build: `config.write::<BloomConfig>` and `entire_binding()` are modelled as the staging buffer's `write` and `binding`. Their own code is not part of this model. The same abstraction is used by MotionVector.Prepared, MotionVector.MotionVectorPrepassNode.Build, MotionVector.MotionVectorPrepassNode.Prepare, ShadowMapping.ShadowMappingNode.Build, ShadowMapping.ShadowMappingNode.UploadTables, ShadowMapping.ShadowMappingNode.UploadViews and ShadowMapping.ShadowMappingNode.Prepare.
- GltfData.FloatCount: `bytemuck::cast_slice` also panics when the slice's address is not aligned to 4 bytes. This depends on where the buffer sits in memory and on the view's byte offset. The model keeps only the length check.
- GltfImport.AttributeStream: inherits that gap. A view whose byte offset is not a multiple of 4 can panic in `cast_slice`, but the model accepts it.
- GltfImport.IndexStream: the same alignment panic, for 2-byte (u16) and 4-byte (u32) indices, is not modelled.
- RenderScene.Rebased: the offset `t` is added to both indices as unbounded numbers. The overflow of the `u32` `+=` at core/src/render/scene.rs:64-65 is not modelled: it panics in a debug build and wraps in a release build. The `as u32` truncation of the vertex count is modelled where the count is taken (`RenderScene.LightStep`, `RenderScene.AreaBytes`, `RenderScene.PushLight`).
- Color.CurvesFixEnds: holds over reals only. In f32, `gamma_inv(1.0)` computes `1.055f32 * 1.0 - 0.055f32`, which rounds to 0.99999994, not 1. `gamma(1.0)` and both curves at 0 are exact in f32 as well.
- Color.ConstantsConvertToThemselves: holds over reals only. In f32, `to_srgba` of linear WHITE is (0.99999994, 0.99999994, 0.99999994, 0.99999994), and of linear BLACK has alpha 0.99999994. TRANSPARENT, and all three constants through `to_linear_rgba`, are exact in f32.
- ShadowMapping.RequireShaderDefs: the shadow filter's define is a parameter, not read from the node's configuration.
- ToneMapping.RequireShaderDefs: returns the new define map. The in-place update of the caller's map is not modelled.
- LegacyNodes.ShadowMappingNode.Draw: `build` is not modelled for the legacy nodes, so no modelled method sets `pipelineBuilt`. The submitting branches of this member and of LegacyNodes.PbrNode.Draw hold for a node whose pipeline a `build` would have made.
- GltfImport.Projection: the corrected orthographic box is proved beside the importer, but the importer uses the box as written (`GltfImport.ProjectionAsWritten`).
- GltfCore.AttributeIntended: the corrected position check is proved beside the loader, but the loader walks the check as written (`GltfCore.AttributeChecked`).
- LegacyNodes.CountOf: states only that the count of one kind of light never exceeds the number of lights, not that it counts exactly the lights of that kind. The layer lemmas rely on its definition.

## Findings

| source | as written | input that shows it | evidently intended | confidence | as-written member | corrected member |
|---|---|---|---|---|---|---|
| chest/src/node/shadow_mapping.rs:602-784 | `prepare` pushes this frame's light-view offsets onto `self.offsets` and never empties it; `draw` indexes it from 0 | frame 1 has one point light, frame 2 adds a directional light: in frame 2 `draw` binds `offsets[6] = 0` for the point light's last face, whose camera starts at byte 6 | `offsets` cleared at the start of `prepare` | high, not executed | ShadowMapping.StaleOffsetAfterLightChange | ShadowMapping.PrepareThenDraw |
| chest/src/node.rs:771-784 | the point shadow map gets `6 * points` layers, but the layer counter runs over point and spot lights | one point and one spot light: the spot light's first face selects layer 6 of a 6-layer map | `6 * (points + spots)` layers | high, not executed | LegacyNodes.PointMapTooSmall | LegacyNodes.LayersFit |
| core/src/import/gltf.rs:88-90 | position bytes are sliced as `[view.offset()..view.length()]`, taking the view's length for its end | a 32-byte buffer and a view at offset 4 of length 8 yields 4 bytes; at offset 16 of length 12 the slice panics | `[offset..offset + length]` | high, not executed | GltfCore.AttributeCheckDiffers | GltfCore.AttributeIntended |
| chest/src/import/gltf.rs:271-274 | an orthographic camera's `xmag`/`ymag` become the full width and height of a symmetric box | `xmag = 1` gives a box from -0.5 to 0.5, where glTF 2.0 (section 3.10.3) reads `xmag` as the half width, from -1 to 1 | width `2 * xmag`, height `2 * ymag` | medium, not executed | GltfImport.OrthographicViewHalved | GltfImport.Projection |
| core-dep/src/resource/material.rs:88-90 | `bind` looks up the uniform under `StandardMaterialUniform`'s type, while `push_uniform` writes under `StandardMaterial`'s | a registry with no entry under the uniform's type: after `push_uniform` and `write`, `bind` finds no buffer | the key `push_uniform` writes | high, not executed | LegacyMaterial.BindMissesPushedUniform | LegacyMaterial.BindFixedSeesPushedUniform |
| core-dep/src/scene/render/mod.rs:113-118 | `write_scene` fetches the lights, registered as a storage buffer, with `get_uniform` | any registry built by `new`, which stores the lights as a storage buffer: the lookup is `None`, so `write_scene` returns before binding | `get_storage` for the lights | high, not executed | LegacyGpuScene.WriteSceneNeverBinds | LegacyGpuScene.WriteSceneFixedBindsBoth |
