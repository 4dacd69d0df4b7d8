# playground-wgpu: the asset-to-draw pipeline, modelled in Dafny

This project models the core of a small Rust rendering playground built on
wgpu and ash. It takes the pipeline from a glTF scene to recorded draw
commands:

- **Scene loader.** It decodes root meshes into `CpuMesh`es, widening indices to `u32` and
  expanding colours to RGBA. It maps glTF samplers onto wgpu samplers and builds one sampled texture per
  document texture. It walks the node graph with a FIFO worklist that accumulates
  transforms, and emits one textured mesh object per mesh node, carrying its
  material's textures in role order.
- **Meshes.** The CPU mesh computes normals in place, generates tangents through the
  mikktspace adapter and uploads to GPU buffers, with a one-element placeholder for
  each absent attribute. The earlier mesh type uploads an empty buffer instead.
- **Mesh objects.** The CPU instance list is separate from the GPU instance buffer and is
  synced only by `ReplaceGpuData`. Drawing records a fixed, balanced command sequence.
- **Textures and lights.** Texture sets become a texture-view array and a sampler array. Both the current and
  the earlier textured mesh object are modelled. Light builders and the append-only
  light list are modelled, with the `#[repr(C)]` layout of the light record and the mesh
  meta uniform.
- **Render target.** Window surface or offscreen texture, with `reconfigure`,
  `destination` and `save`.
- **Vulkan helpers of the ash renderer.** These cover the memory-type choice, image creation with bound memory,
  command-buffer allocation, and the writer that must be finished before it is dropped. They also cover
  the device and queue-family choice, the debug callback's severity dispatch, and
  the start-up sequence.
- **Two demo binaries.** The texture-mapping demo contributes its checkerboard generator and its upload layout.
  The first 3D demo contributes its own glTF loader with its non-rebasing quirks,
  and the guard and draw of its `render`.

Shared pieces are in separate modules:

- `Common`: options, outcomes and fixed-width integers. An outcome is a value, a returned error or an abort.
  A glam `Mat4` is modelled as a free monoid of elementary transforms, so multiplication is associative with identity.
- `Gpu`: wgpu buffers, bind groups and a recording render pass.
- `Vk`: Vulkan results and descriptions.
- `ReprC`: the C layout rule.
- `GltfDocument`: the imported glTF document.

Everything is modelled in the style of the source. Code that mutates fields becomes
classes with `modifies` frames: `CpuMesh`, `MeshObject`, both `MeshObjectTextured`s,
`CpuLights`, `Target`, `Device`, `CommandBufferWriter` and the render pass. Loops become methods with invariants, each proved equal to a
specification function. Pure matches and builders become functions.

Driver calls, the windowing system and the glTF importer are not modelled as code. Their answers are inputs:
- a Vulkan call's `VkResult`, or a function of the request when the request carries a choice;
- the acquired surface texture and the window size;
- the imported document.

The face normal (normalised cross product) and the mikktspace tangent generator are
floating-point or foreign code. The face normal is a function parameter. The tangent generator is given as the sequence of
`set_tangent_encoded` calls it makes.

Where the source files disagree, the code that runs is followed:
- `render_engine/src/texture/mod.rs` shows a `SampledTexture` with no role tag. The loader and
  `fragment/mesh_object_textured.rs` set one, so `SampledTexture` carries a `TextureType`.
- A comment in `render_engine/src/vertex/mesh.rs` speaks of zero-length buffers. The code uploads
  one-element placeholders, and the model follows the code.

The node walk terminates only on an acyclic node graph. glTF requires strict trees,
so the traversal lemmas and methods take a ghost rank that witnesses the absence of cycles.

## Model

| member | source | states |
|---|---|---|
| Mikktspace.FaceVertToIndex | render_engine/src/vertex/mikktspace.rs:13-16 | corner `vert` (< 3) of face `f` lies at an index whose quotient by 3 is `f` and whose remainder is `vert` |
| Mikktspace.NumFaces | render_engine/src/vertex/mikktspace.rs:19-21 | only whole triangles count: 3·n ≤ index length < 3·n + 3, trailing indices ignored |
| Mikktspace.FaceCornersCoverIndexList | render_engine/src/vertex/mikktspace.rs:14-21 | an index position is a corner of a counted face iff it lies in the complete triangles |
| Mikktspace.FaceVertToIndexInjective | render_engine/src/vertex/mikktspace.rs:14-16 | two corners sharing an index position are the same face and vertex |
| Mikktspace.FaceCornerInRange | render_engine/src/vertex/mikktspace.rs:19-30 | every corner of every counted face reads inside the index list |
| VertexMesh.SetComponent | render_engine/src/vertex/mesh.rs:52-57 | exactly the chosen component is set, the other two are kept |
| VertexMesh.MakeAxisPolys | render_engine/src/vertex/mesh.rs:46-60 | the triangle is the axis polygon for the axis and alternation: origin, then the two offset corners |
| VertexMesh.Flatten | render_engine/src/vertex/mesh.rs:74-79 | triangle `t` of the list occupies positions 3t..3t+3 of the flattened list |
| VertexMesh.AxisPositions | render_engine/src/vertex/mesh.rs:61-79 | 18 positions whose six triangles are the axis polygons of the table |
| VertexMesh.AxisFrame | render_engine/src/vertex/mesh.rs:45-98 | 18 positions and indices 0..17, each triangle's colour repeated three times, name "coordinate_frame", no uv or tangents, normals those computed over its triangles |
| VertexMesh.DefaultNamePrefixInjective | render_engine/src/vertex/mesh.rs:131-142 | the default prefix determines both lengths: meshes with different lengths get different names |
| VertexMesh.Normals | render_engine/src/vertex/mesh.rs:116-129 | one normal per position |
| VertexMesh.NormalsUnreferencedZero | render_engine/src/vertex/mesh.rs:116-129 | a vertex no triangle refers to keeps the zero normal |
| VertexMesh.NormalsLastTriangleWins | render_engine/src/vertex/mesh.rs:118-127 | a referenced vertex gets the face normal of the last triangle referring to it |
| VertexMesh.NormalsStep | render_engine/src/vertex/mesh.rs:118-127 | one more triangle overwrites exactly its three vertices with its face normal |
| VertexMesh.NotInRangePastTriangle | render_engine/src/vertex/mesh.rs:119-121 | an out-of-range index in any triple makes the whole list invalid |
| VertexMesh.ComputeNormals | render_engine/src/vertex/mesh.rs:116-129 | succeeds iff the index list is whole triangles with in-range indices, and then yields the specified normals; otherwise aborts |
| VertexMesh.CpuMesh.CalculateNormals | render_engine/src/vertex/mesh.rs:116-129 | sets `normal` to the specified normals when the triangles are valid, aborts leaving it unchanged otherwise, and touches no other field |
| VertexMesh.EncodeTangent | render_engine/src/vertex/mikktspace.rs:53 | the stored tangent is the generated one with `w` negated and x, y, z kept |
| VertexMesh.TangentsAfter | render_engine/src/vertex/mikktspace.rs:46-56 | replaying the generator's writes keeps the tangent count |
| VertexMesh.TangentsAfterWritesOnlyNamedVertices | render_engine/src/vertex/mikktspace.rs:46-56 | a vertex no write names keeps its tangent |
| VertexMesh.TangentsAfterStaysNone | render_engine/src/vertex/mesh.rs:112-113 | once a write aborts, the whole generation aborts |
| VertexMesh.AttributeBuffer | render_engine/src/vertex/mesh.rs:174-224 | a present attribute is uploaded whole, an absent one as a single zero element; the buffer is empty only for a present empty array |
| VertexMesh.VertexLayoutCoversOnePosition | render_engine/src/vertex/mesh.rs:337-351 | the vertex layout is one Float32x3 attribute at location 0 with stride 12 |
| VertexMesh.CpuMesh.New | render_engine/src/vertex/mesh.rs:33-43 | stores positions and indices as given, every optional field absent, nothing validated |
| VertexMesh.CpuMesh.WithName | render_engine/src/vertex/mesh.rs:101-104 | sets the name and changes no other field |
| VertexMesh.CpuMesh.GetNamePrefix | render_engine/src/vertex/mesh.rs:131-142 | the name when set, otherwise the prefix built from the position and index counts |
| VertexMesh.CpuMesh.CalculateTangents | render_engine/src/vertex/mesh.rs:106-114 | without uv or normals returns false and leaves tangents unchanged; otherwise starts from zero tangents and succeeds iff every generator write succeeds |
| VertexMesh.CpuMesh.NumFaces | render_engine/src/vertex/mikktspace.rs:19-21 | the number of whole triangles of the mesh's index list |
| VertexMesh.CpuMesh.NumVerticesOfFace | render_engine/src/vertex/mikktspace.rs:23-26 | every face has three vertices |
| VertexMesh.CpuMesh.VertexOf | render_engine/src/vertex/mikktspace.rs:28-30 | the vertex stored at the corner's index position; aborts iff that position is past the index list |
| VertexMesh.CpuMesh.Position | render_engine/src/vertex/mikktspace.rs:28-32 | the position of the corner's vertex, aborting on an out-of-range index |
| VertexMesh.CpuMesh.Normal | render_engine/src/vertex/mikktspace.rs:34-38 | the normal of the corner's vertex; aborts when normals are absent or the index is out of range |
| VertexMesh.CpuMesh.TexCoord | render_engine/src/vertex/mikktspace.rs:40-44 | the uv of the corner's vertex; aborts when uvs are absent or the index is out of range |
| VertexMesh.CpuMesh.SetTangentEncoded | render_engine/src/vertex/mikktspace.rs:46-56 | writes the encoded tangent at exactly the corner's vertex; aborts, changing nothing, when tangents are absent or the index is out of range |
| VertexMesh.CpuMesh.ToGpu | render_engine/src/vertex/mesh.rs:145-262 | vertex and index buffers hold the lists; presence flags mirror the optional fields; each optional buffer holds the array or one zero element (16, 16, 8, 16 bytes); normal, colour and uv bound at 0, 1, 2, the tangent buffer never bound; the index count is the length modulo 2^32 (`as u32`) |
| LegacyMesh.New | render_engine/src/mesh.rs:30-39 | stores positions and indices, every optional field absent |
| LegacyMesh.WithName | render_engine/src/mesh.rs:41-44 | sets the name and changes nothing else |
| LegacyMesh.GetNamePrefix | render_engine/src/mesh.rs:46-57 | the name when set, otherwise the same length-derived prefix as the current mesh |
| LegacyMesh.OptionalBuffer | render_engine/src/mesh.rs:79-95 | a present attribute uploaded whole, an absent one as an empty buffer |
| LegacyMesh.ToGpu | render_engine/src/mesh.rs:60-121 | vertex and index buffers hold the lists; normal and colour bound at 0 and 1 only, under the caller's layout; absent attributes give zero-size buffers; the index count is the length modulo 2^32 (`as u32`) |
| LegacyMesh.AbsentNormalsEmptyHereButPlaceholderNow | render_engine/src/mesh.rs:79-86 | with no normals the earlier upload gives a 0-byte buffer where the current one gives 16 bytes |
| MeshObjects.BoolToU32 | render_engine/src/vertex/mesh_object.rs:60-64 | 1 exactly for true, else 0 |
| MeshObjects.MetaUniformOf | render_engine/src/vertex/mesh_object.rs:60-64 | each presence word is 1 iff the GPU mesh has that attribute |
| MeshObjects.MetaUniformOffsets | render_engine/src/vertex/mesh_object.rs:42-48 | the three `u32` fields lie at offsets 0, 4 and 8 |
| MeshObjects.MetaUniformSize | render_engine/src/vertex/mesh_object.rs:42-48 | the uniform is 12 bytes |
| MeshObjects.MeshObjectBindGroup | render_engine/src/vertex/mesh_object.rs:75-102 | bindings 0..4 are distinct and match the layout: uniform, instances, then the mesh's normal, colour and uv buffers |
| MeshObjects.Resize | render_engine/src/vertex/mesh_object.rs:116 | `Vec::resize`: the new length, old elements kept, the rest filled |
| MeshObjects.MeshObject.New | render_engine/src/vertex/mesh_object.rs:52-112 | no instances, a placeholder instance buffer of one zeroed `Mat4`, the meta uniform from the mesh's flags |
| MeshObjects.MeshObject.SetSingleTransform | render_engine/src/vertex/mesh_object.rs:115-118 | the instance list becomes exactly that transform; GPU buffer and bind group untouched |
| MeshObjects.MeshObject.SetTransforms | render_engine/src/vertex/mesh_object.rs:121-123 | the instance list becomes a copy of the slice; GPU side untouched |
| MeshObjects.MeshObject.ReplaceGpuData | render_engine/src/vertex/mesh_object.rs:126-171 | afterwards the instance buffer and bind group reflect the unchanged instance list |
| MeshObjects.MeshObject.DrawCommands | render_engine/src/vertex/mesh_object.rs:173-188 | six balanced commands: debug group, bind group at set 2, vertex buffer 0, Uint32 index buffer, draw of all indices once per CPU instance (the instance count modulo 2^32, `as u32`), pop |
| MeshObjects.MeshObject.AddCommands | render_engine/src/vertex/mesh_object.rs:173-188 | appends exactly those commands to the pass |
| MeshObjects.SyncedDrawCoversBuffer | render_engine/src/vertex/mesh_object.rs:126-188 | after a sync the draw's instance count times 64 bytes is the instance buffer's size and the bound size |
| Textures.TexturesOf | render_engine/src/texture/mod.rs:31-35 | one texture per sampled texture, in order |
| Textures.SamplersOf | render_engine/src/texture/mod.rs:29-30 | one sampler per sampled texture, in order |
| Textures.NewCpuTextureInfo | render_engine/src/texture/mod.rs:20-26 | stores the name and the list unchanged |
| Textures.ToGpu | render_engine/src/texture/mod.rs:28-56 | a view array and a sampler array, one entry per texture in list order, at bindings 0 and 1, labelled with the name; an empty list gives empty arrays |
| Textures.ToGpuIgnoresRoles | render_engine/src/texture/mod.rs:28-56 | the role tags never reach the GPU |
| Textures.ToGpuFitsLayoutIff | render_engine/src/texture/mod.rs:68-92 | the group fits the layout's fixed count of 512 iff the list has at most 512 textures (nothing checks it) |
| Textures.AddCommands | render_engine/src/texture/mod.rs:93-95 | appends one bind at set 3 |
| FragmentTextured.SimpleSampledTextures | render_engine/src/fragment/mesh_object_textured.rs:32-53 | one ClampToEdge/Linear sampled texture per input, in order, tagged BaseColor |
| FragmentTextured.MeshObjectTextured.New | render_engine/src/fragment/mesh_object_textured.rs:70-92 | textures named after the mesh, in the given order; ends synced with the instance list unchanged |
| FragmentTextured.MeshObjectTextured.NewSimple | render_engine/src/fragment/mesh_object_textured.rs:26-68 | the same with the simple sampled textures |
| FragmentTextured.MeshObjectTextured.ReplaceGpuData | render_engine/src/fragment/mesh_object_textured.rs:93-96 | both the mesh object and the texture group end in sync, instances unchanged |
| FragmentTextured.MeshObjectTextured.DrawCommands | render_engine/src/fragment/mesh_object_textured.rs:98-101 | the texture bind at set 3 first, then the mesh object's six commands; balanced |
| FragmentTextured.MeshObjectTextured.AddCommands | render_engine/src/fragment/mesh_object_textured.rs:98-101 | appends exactly those commands |
| LegacyTextured.Wrap | render_engine/src/render/mesh_object_textured.rs:63-80 | one ClampToEdge/Linear sampler per texture, count and order kept |
| LegacyTextured.TextureBindGroup | render_engine/src/render/mesh_object_textured.rs:108-140 | views and samplers of equal length, in order, at bindings 0 and 1 |
| LegacyTextured.TextureBindGroupFitsIff | render_engine/src/render/mesh_object_textured.rs:26-59 | the layout's count is 1, so the group fits iff there is at most one texture |
| LegacyTextured.MeshObjectTextured.New | render_engine/src/render/mesh_object_textured.rs:61-106 | wraps the textures and ends with the bind group rebuilt from them |
| LegacyTextured.MeshObjectTextured.ReplaceGpuData | render_engine/src/render/mesh_object_textured.rs:108-140 | rebuilds the texture group from the textures, mesh object untouched |
| LegacyTextured.MeshObjectTextured.AddCommands | render_engine/src/render/mesh_object_textured.rs:142-145 | binds set 3, then the mesh object's commands |
| Lights.Discriminant | render_engine/src/lights.rs:9-16 | Off, Directional, Omni, Ambient are 0, 1, 2, 3, each iff |
| Lights.DiscriminantInjective | render_engine/src/lights.rs:9-16 | distinct light types have distinct discriminants |
| Lights.OmniLight | render_engine/src/lights.rs:32-37 | the default light with only the type set to Omni |
| Lights.DirectionalLight | render_engine/src/lights.rs:38-43 | the default light with only the type set to Directional |
| Lights.WithPosition | render_engine/src/lights.rs:44-47 | changes exactly the position |
| Lights.WithDirection | render_engine/src/lights.rs:48-51 | changes exactly the direction |
| Lights.WithColor | render_engine/src/lights.rs:52-55 | changes exactly the colour |
| Lights.WithIntensity | render_engine/src/lights.rs:56-59 | changes exactly the intensity |
| Lights.BuildersCommute | render_engine/src/lights.rs:44-59 | builders of different fields commute |
| Lights.PadOffset | render_engine/src/lights.rs:18-28 | the padding starts at byte 52 |
| Lights.TypeOffset | render_engine/src/lights.rs:18-28 | the light type lies at byte 48 |
| Lights.IntensityOffset | render_engine/src/lights.rs:18-28 | the intensity lies at byte 44, packed after the colour |
| Lights.LightTailOffsets | render_engine/src/lights.rs:18-28 | the colour lies at byte 32 |
| Lights.SecondFieldOffsets | render_engine/src/lights.rs:18-28 | the direction lies at byte 16 |
| Lights.LightOffsets | render_engine/src/lights.rs:18-28 | under the C layout rule the fields lie at 0, 16, 32, 44, 48, 52 |
| Lights.LightSize | render_engine/src/lights.rs:18-28 | the record is 64 bytes with alignment 16 |
| Lights.CpuLights.New | render_engine/src/lights.rs:71-76 | starts empty |
| Lights.CpuLights.AddLights | render_engine/src/lights.rs:77-79 | appends the new lights in order after the existing ones |
| Lights.CpuLights.WithLights | render_engine/src/lights.rs:80-83 | the same append, returning the same list object |
| Lights.CpuLights.ToGpu | render_engine/src/lights.rs:101-131 | the lights uploaded in order at 64 bytes each, bound at binding 0 |
| ReprC.AlignUp | render_engine/src/lights.rs:18-28 | the least multiple of the alignment not below the offset |
| ReprC.OffsetsFrom | render_engine/src/lights.rs:18-28 | one offset per field |
| ReprC.OffsetsFromLayout | render_engine/src/lights.rs:18-28 | each field is aligned, does not overlap the previous one, and starts before the next aligned slot |
| ReprC.MaxAlign | render_engine/src/lights.rs:18-28 | the largest field alignment, or 1 for no fields |
| ReprC.StructSize | render_engine/src/lights.rs:18-28 | a multiple of the largest alignment that covers the last field |
| RenderTarget.AtLeastOne | render_engine/src/target.rs:173-174 | at least 1, equal to the input when that is positive |
| RenderTarget.SaveLayoutAsWritten | render_engine/src/target.rs:146-193 | the readback plan as written: 4·w·h bytes, rows of 4·w bytes, images of w rows |
| RenderTarget.SaveLayoutAsWrittenTooFewRows | render_engine/src/target.rs:188-190 | for a 64×128 target, whose 256-byte rows are aligned, the plan gives 64 rows per image against a copy 128 rows high, so the copy does not fit; the corrected plan does |
| RenderTarget.SaveLayoutAsWrittenFitsIff | render_engine/src/target.rs:146-193 | for a non-empty target whose width is a multiple of 64, the written plan fits iff h ≤ w |
| RenderTarget.SaveLayout | render_engine/src/target.rs:146-193 | the corrected plan: images of h rows |
| RenderTarget.SaveLayoutFits | render_engine/src/target.rs:146-193 | the corrected plan fits every non-empty target whose width is a multiple of 64 (256-byte rows), and agrees with the written one iff w = h |
| RenderTarget.Target.Reconfigure | render_engine/src/target.rs:84-105 | true iff a window target with positive size; then the config takes the window size and is configured once; otherwise nothing changes |
| RenderTarget.Target.NewSurface | render_engine/src/target.rs:107-120 | a window target that has reconfigured once: configured at the window size if it is positive, never configured otherwise |
| RenderTarget.Target.NewTexture | render_engine/src/target.rs:121-142 | an offscreen texture of the config's size and format, usable as copy source and render attachment, never configured |
| RenderTarget.Target.Destination | render_engine/src/target.rs:53-73 | total for a texture target, with no surface texture; on a window, returns the acquisition error unchanged and keeps the acquired texture |
| RenderTarget.DestinationIntoSurface | render_engine/src/target.rs:32-34 | `into_surface` returns exactly the captured surface texture, and nothing for a texture target |
| RenderTarget.Target.Save | render_engine/src/target.rs:143-193 | aborts when 4·w or 4·w·h overflows `u32`, then on a window target; otherwise the readback plan as written, which fits when w is a multiple of 64 and 0 < h ≤ w and does not fit when w < h |
| TextureMapping.QuadIndicesValid | simple_start/src/bin/texture_mapping/main.rs:36-63 | 6 indices forming 2 triangles, all below the 4 vertices, every vertex used |
| TextureMapping.RotatePositions | simple_start/src/bin/texture_mapping/main.rs:147-152 | each vertex's position is replaced by its rotation, normal and colour kept |
| TextureMapping.WrappingSub | simple_start/src/bin/texture_mapping/main.rs:182 | the difference when i ≥ j, else 2^32 minus the distance |
| TextureMapping.TexelOffset | simple_start/src/bin/texture_mapping/main.rs:175 | texel (i, j) occupies bytes 4·(256·j + i) .. +3 and no other texel shares them |
| TextureMapping.GreenBelowDiagonal | simple_start/src/bin/texture_mapping/main.rs:182-186 | below the diagonal the green bands follow the rounded-up distance, because of the wrap-around |
| TextureMapping.GreenAsymmetric | simple_start/src/bin/texture_mapping/main.rs:182-186 | green is lit at (1, 0) but not at (0, 1) |
| TextureMapping.CheckerboardSymmetry | simple_start/src/bin/texture_mapping/main.rs:181-189 | red and blue are symmetric in i and j; alpha is always 255 |
| TextureMapping.Checkerboard | simple_start/src/bin/texture_mapping/main.rs:172-191 | a fresh 4·256·256-byte buffer whose every byte is its texel's checkerboard value |
| TextureMapping.WriteTexel | simple_start/src/bin/texture_mapping/main.rs:175-189 | writes exactly the four bytes of one texel |
| TextureMapping.WrittenStep | simple_start/src/bin/texture_mapping/main.rs:173-191 | one inner step adds exactly that texel's bytes to those written |
| TextureMapping.WrittenColumn | simple_start/src/bin/texture_mapping/main.rs:173-191 | a finished column leaves exactly the columns so far written |
| TextureMapping.UploadLayout | simple_start/src/bin/texture_mapping/main.rs:201-218 | rows of 4·256 bytes, images of 256 rows, the whole 256×256 texture |
| TextureMapping.UploadFits | simple_start/src/bin/texture_mapping/main.rs:172-218 | the generated buffer is exactly what the upload reads |
| LoaderFormats.WrapToWgpu | render_engine/src/loader/mod.rs:149-157 | ClampToEdge, MirroredRepeat, Repeat map to their wgpu counterparts, each iff |
| LoaderFormats.WrapToWgpuInjective | render_engine/src/loader/mod.rs:149-157 | the wrap map is one-to-one and never yields ClampToBorder |
| LoaderFormats.MagToWgpu | render_engine/src/loader/mod.rs:161-168 | Nearest and Linear map one-to-one |
| LoaderFormats.MinToWgpu | render_engine/src/loader/mod.rs:172-183 | Nearest iff the glTF filter is Nearest or NearestMipmapNearest, Linear otherwise |
| LoaderFormats.MinToWgpuAgreesWithMag | render_engine/src/loader/mod.rs:172-183 | the plain filters agree with the mag map and the three other mipmap filters give Linear |
| LoaderFormats.SamplerDescriptorOf | render_engine/src/loader/mod.rs:306-320 | U from wrap_s, V and W both from wrap_t, missing filters default to Linear, mipmap filter Linear |
| LoaderFormats.ToGlam | render_engine/src/loader/mod.rs:188-207 | a matrix transform as given; a decomposed one as rotation-translation times scale |
| LoaderFormats.RgbToRgba | render_engine/src/loader/mod.rs:122-130 | each pixel's three bytes copied, with alpha 255 appended |
| LoaderFormats.GltfToRgba8 | render_engine/src/loader/mod.rs:118-144 | RGB8 is expanded and RGBA8 copied when the pixel data is long enough; every other format aborts |
| LoaderFormats.LoadGltfTexture | render_engine/src/loader/mod.rs:209-249 | an RGBA8 texture of the image's size, present iff the conversion succeeds |
| LoaderMeshes.WidenIndices | render_engine/src/loader/mod.rs:44-56 | U8 and U16 indices widened with values and order kept, U32 copied |
| LoaderMeshes.ExpandColors | render_engine/src/loader/mod.rs:59-73 | RGB f32 gains alpha 1.0, RGBA f32 copied, every integer encoding aborts |
| LoaderMeshes.DecodePrimitive | render_engine/src/loader/mod.rs:32-100 | the decoded mesh holds the primitive's streams, tagged with the mesh index and name; aborts exactly on an integer colour encoding |
| LoaderMeshes.DecodeNode | render_engine/src/loader/mod.rs:16-33 | nothing for a node without a mesh or a mesh of no primitives, abort for several, the one primitive decoded otherwise |
| LoaderMeshes.RootNodesInRange | render_engine/src/loader/mod.rs:13-14 | the root nodes of any scene prefix name existing nodes |
| LoaderMeshes.RootsOfInRange | render_engine/src/loader/mod.rs:13-14 | the same for any list of scenes whose roots exist |
| LoaderMeshes.DecodeNodes | render_engine/src/loader/mod.rs:8-106 | at most one decoded mesh per node; any failure is an abort |
| LoaderMeshes.DecodeNodesAbortPersists | render_engine/src/loader/mod.rs:8-106 | after an abort, later nodes change nothing |
| LoaderMeshes.DecodeNodesSnoc | render_engine/src/loader/mod.rs:8-106 | one more node appends its decoded mesh, or aborts with its reason |
| LoaderMeshes.DecodeNodesOkIff | render_engine/src/loader/mod.rs:8-106 | the decoding succeeds iff every node decodes |
| LoaderMeshes.DecodeNodesMembers | render_engine/src/loader/mod.rs:8-106 | the result holds exactly the decoded meshes of the nodes |
| LoaderMeshes.LoadGltfMeshes | render_engine/src/loader/mod.rs:8-106 | succeeds iff the specification does; each result is tagged with, and holds, its decoded mesh, in order |
| LoaderMeshes.LoadRoots | render_engine/src/loader/mod.rs:14-103 | the loop over one scene's roots extends the specification's result or aborts as it does |
| LoaderMeshes.AbortInScene | render_engine/src/loader/mod.rs:14-103 | an abort at a root ends the scene with that abort |
| LoaderMeshes.LoadRoot | render_engine/src/loader/mod.rs:16-101 | one root node built into a fresh `CpuMesh` holding its decoded lists, or its abort |
| LoaderMeshes.AbortReachesEnd | render_engine/src/loader/mod.rs:13-104 | an abort in an early scene is the whole result |
| LoaderMeshes.RootNodesConcat | render_engine/src/loader/mod.rs:13-14 | the root list of joined scenes is the join of their root lists |
| LoaderTextures.SampledTextureOf | render_engine/src/loader/mod.rs:296-323 | the texture loaded from the image with the mapped sampler and no role; image errors propagate |
| LoaderTextures.SampledTexturesOkIff | render_engine/src/loader/mod.rs:295-324 | succeeds iff every texture loads, then one sampled texture per document texture, in order |
| LoaderTextures.SampledTexturesAbortPersists | render_engine/src/loader/mod.rs:295-324 | the first failure is the result |
| LoaderTextures.LoadTextures | render_engine/src/loader/mod.rs:295-324 | the pre-pass loop yields exactly the specified list or failure |
| LoaderTextures.RoleSlots | render_engine/src/loader/mod.rs:374-417 | five slots, each with a real role |
| LoaderTextures.PickSlots | render_engine/src/loader/mod.rs:374-417 | every picked texture is the pre-pass texture a filled slot names, tagged with that slot's role |
| LoaderTextures.PickSlotsIncreasing | render_engine/src/loader/mod.rs:374-417 | the picked roles follow the slot order |
| LoaderTextures.PickSlotsAfterFirst | render_engine/src/loader/mod.rs:374-417 | textures picked after the first slot rank after it |
| LoaderTextures.PickSlotsComplete | render_engine/src/loader/mod.rs:374-417 | every filled slot contributes its texture |
| LoaderTextures.MaterialTexturesByRole | render_engine/src/loader/mod.rs:374-417 | a filled slot's texture is present with its role, an empty slot's role is absent, and the order is Emissive, BaseColor, MetallicRoughness, Normal, Occlusion |
| LoaderTraversal.ThisTransform | render_engine/src/loader/mod.rs:349 | a node's transform is its local transform times the inherited one |
| LoaderTraversal.ChildEntries | render_engine/src/loader/mod.rs:435-440 | one entry per child, in order, each carrying the parent's transform |
| LoaderTraversal.Paths | render_engine/src/loader/mod.rs:333-345 | the number of downward paths from a node counts the node itself, so it is at least 1 |
| LoaderTraversal.QueueWork | render_engine/src/loader/mod.rs:333-345 | the remaining work is at least the queue length |
| LoaderTraversal.QueueWorkConcat | render_engine/src/loader/mod.rs:333-345 | work adds up over joined queues |
| LoaderTraversal.QueueWorkChildren | render_engine/src/loader/mod.rs:435-440 | the work of a node's enqueued children is the number of paths below them |
| LoaderTraversal.StepWork | render_engine/src/loader/mod.rs:345 | each pop-and-enqueue lowers the work by exactly one, so the loop ends |
| LoaderTraversal.Visits | render_engine/src/loader/mod.rs:338-441 | the visit sequence has one entry per unit of work |
| LoaderTraversal.VisitsFifo | render_engine/src/loader/mod.rs:338-441 | the queued entries are visited first, in queue order |
| LoaderTraversal.VisitsUnfold | render_engine/src/loader/mod.rs:338-441 | visiting is popping the front, then visiting the updated queue |
| LoaderTraversal.VisitsClosed | render_engine/src/loader/mod.rs:338-441 | every child of a visited node is visited with that node's transform |
| LoaderTraversal.VisitsOrigin | render_engine/src/loader/mod.rs:338-441 | every visit beyond the initial queue was enqueued by an earlier visit |
| LoaderTraversal.OriginAfterPop | render_engine/src/loader/mod.rs:338-441 | that origin property survives a pop |
| LoaderTraversal.Walk | render_engine/src/loader/mod.rs:338-345 | the whole walk names only existing nodes |
| LoaderTraversal.WalkStart | render_engine/src/loader/mod.rs:338-342 | the walk starts at node 0 with the identity and visits every path from node 0 |
| LoaderTraversal.WalkOrigin | render_engine/src/loader/mod.rs:338-441 | every visit after the first was enqueued by an earlier one |
| LoaderTraversal.WalkClosed | render_engine/src/loader/mod.rs:338-441 | every child of a visited node is visited |
| LoaderTraversal.GrandchildTransform | render_engine/src/loader/mod.rs:349 | a grandchild of node 0 is visited at its local transform times its parent's times node 0's |
| LoaderObjects.MeshIndices | render_engine/src/loader/mod.rs:354-357 | the mesh indices of the decoded meshes, in order |
| LoaderObjects.FindTag | render_engine/src/loader/mod.rs:354-357 | the first position holding the mesh index, absent iff none does |
| LoaderObjects.PrimitiveTextures | render_engine/src/loader/mod.rs:364-418 | no material gives no textures; an opaque material gives its role-ordered textures; any other alpha mode aborts |
| LoaderObjects.VisitOutcomeMeaning | render_engine/src/loader/mod.rs:346-432 | no mesh emits nothing; a mesh missing from the decoded list is the "could not find mesh" error; an emission is the first decoded mesh with that index at the node's transform with its textures |
| LoaderObjects.Emissions | render_engine/src/loader/mod.rs:345-441 | at most one object per visit |
| LoaderObjects.EmissionsSnoc | render_engine/src/loader/mod.rs:345-441 | one more visit appends its object or ends with its failure |
| LoaderObjects.EmissionsAbortPersists | render_engine/src/loader/mod.rs:345-441 | after a failure later visits change nothing |
| LoaderObjects.EmissionsOkIff | render_engine/src/loader/mod.rs:345-441 | the emission succeeds iff every visit does |
| LoaderObjects.EmissionsOkAll | render_engine/src/loader/mod.rs:345-441 | success means every visit succeeded |
| LoaderObjects.EmissionsFailSome | render_engine/src/loader/mod.rs:345-441 | failure means some visit failed |
| LoaderObjects.EmissionsOkStep | render_engine/src/loader/mod.rs:345-441 | success of a prefix plus the last visit is success of the whole |
| LoaderObjects.DecodedMeshHasOnePrimitive | render_engine/src/loader/mod.rs:358-362 | every decoded mesh index names a mesh of exactly one primitive |
| LoaderObjects.VisitOutcomeCases | render_engine/src/loader/mod.rs:358-362 | a mesh node is either not found, emitted, or aborted by a non-opaque material; the multi-primitive abort cannot happen |
| LoaderObjects.NonRootMeshNotFound | render_engine/src/loader/mod.rs:354-357 | a mesh used by no root node is the "could not find mesh" error |
| LoaderObjects.AllEmitSnoc | render_engine/src/loader/mod.rs:427-431 | appending an emitted object keeps output and emissions in step |
| LoaderObjects.CollectMaterialTextures | render_engine/src/loader/mod.rs:374-417 | the loop yields exactly the material's role-ordered textures |
| LoaderObjects.PushChildren | render_engine/src/loader/mod.rs:435-440 | the queue gains one entry per child, in order, carrying the transform |
| LoaderObjects.Visit | render_engine/src/loader/mod.rs:346-432 | the body of the walk for one node produces exactly the specified outcome, with a fresh object when it emits |
| LoaderObjects.ReadPrimitiveTextures | render_engine/src/loader/mod.rs:364-418 | the material lookup yields exactly the specified textures or abort |
| LoaderObjects.NewTexturedObject | render_engine/src/loader/mod.rs:422-431 | a fresh object with one instance at the transform, textures named after the mesh, synced |
| LoaderObjects.VisitAndAppend | render_engine/src/loader/mod.rs:346-432 | one loop iteration extends the output in step with the specified emissions |
| LoaderObjects.PopInWalk | render_engine/src/loader/mod.rs:345 | a pop keeps visited-so-far plus the rest equal to the whole walk, and lowers the work |
| LoaderObjects.AbortInWalk | render_engine/src/loader/mod.rs:345-441 | a failure during the walk is the walk's result |
| LoaderObjects.PopAndPush | render_engine/src/loader/mod.rs:345-440 | the worklist update is the specified step, lowering the work |
| LoaderObjects.Traverse | render_engine/src/loader/mod.rs:330-445 | the worklist loop emits one object per specified emission, in visit order, or fails as specified |
| LoaderObjects.LoadGltfObjects | render_engine/src/loader/mod.rs:251-446 | decoding, texture pre-pass, node 0, then the walk: the output matches the specification in success and failure |
| LoaderObjects.LoadGltf | render_engine/src/loader/mod.rs:108-116 | the desired decoded mesh as a fresh `CpuMesh`; fails iff decoding fails or the index is past the list |
| First3d.SelectedNodes | interactivity/src/bin/first_3d/main.rs:67-71 | names only existing nodes, at most one per scene |
| First3d.SelectedNodesSound | interactivity/src/bin/first_3d/main.rs:67-71 | every selected node is at the desired position in some scene |
| First3d.SelectedNodesComplete | interactivity/src/bin/first_3d/main.rs:67-71 | every scene long enough contributes its node at the desired position |
| First3d.SelectedNodesStep | interactivity/src/bin/first_3d/main.rs:67-71 | scenes are read in order |
| First3d.PrimitivesOfCons | interactivity/src/bin/first_3d/main.rs:72-73 | the primitives of the selected nodes are read node by node, in order |
| First3d.NewVertices | interactivity/src/bin/first_3d/main.rs:78-87 | one vertex per position, coloured by its position, with a zero normal |
| First3d.SetNormals | interactivity/src/bin/first_3d/main.rs:90-95 | the n-th normal goes to the n-th vertex of the whole list; more normals than vertices aborts with the index-out-of-bounds message |
| First3d.AddPrimitive | interactivity/src/bin/first_3d/main.rs:73-115 | aborts iff there are more normals than vertices; the positions are appended, the indices appended unrebased, the normals written from the start of the list, and every other vertex keeps its normal or stays zero |
| First3d.AssembleFrom | interactivity/src/bin/first_3d/main.rs:72-117 | every failure is an abort |
| First3d.AssembleConcat | interactivity/src/bin/first_3d/main.rs:72-117 | assembling joined primitive lists is assembling one after the other |
| First3d.IndicesNotRebased | interactivity/src/bin/first_3d/main.rs:97-109 | the indices are the primitives' indices concatenated, never offset |
| First3d.VertexCount | interactivity/src/bin/first_3d/main.rs:78-87 | one vertex per position of every primitive |
| First3d.ColorIsPosition | interactivity/src/bin/first_3d/main.rs:84-85 | every vertex's colour is its position |
| First3d.NormalsNotRebased | interactivity/src/bin/first_3d/main.rs:90-95 | the second primitive's normal lands on the first primitive's vertex, leaving its own vertex with zero |
| First3d.TooManyNormalsAbort | interactivity/src/bin/first_3d/main.rs:90-95 | more normals than vertices so far aborts |
| First3d.ReadPrimitive | interactivity/src/bin/first_3d/main.rs:74-115 | the vertex and index loops for one primitive compute exactly its specified effect |
| First3d.ReadMesh | interactivity/src/bin/first_3d/main.rs:73-116 | the loop over a mesh's primitives is the specified assembly |
| First3d.ReadNode | interactivity/src/bin/first_3d/main.rs:72-117 | the same for one selected node |
| First3d.LoadGltf | interactivity/src/bin/first_3d/main.rs:59-121 | the whole loader equals the specified assembly over the selected nodes |
| First3d.Initialise | interactivity/src/bin/first_3d/main.rs:139-176 | the buffers hold the geometry of node 0 and the index count is its length modulo 2^32 (`as u32`) |
| First3d.Render | interactivity/src/bin/first_3d/main.rs:177-372 | draws iff the surface is configured, the state exists and the texture is acquired; returns Lost without a configured surface, aborts without state, passes an acquisition failure on; otherwise binds the vertex and index buffers and draws the whole index buffer once |
| First3d.DrawCoversIndexBuffer | interactivity/src/bin/first_3d/main.rs:155-160 | the drawn index count times 4 bytes is the index buffer's size |
| Pyroclastic.Device.constructor | simple_start_ash/src/pyroclastic.rs:98-112 | a device that has recorded no calls |
| Pyroclastic.Device.RecordCommandBuffer | simple_start_ash/src/pyroclastic.rs:175-187 | issues one begin; on success a fresh unfinished writer for this device, else the driver's error |
| Pyroclastic.FirstSuitableFrom | simple_start_ash/src/pyroclastic.rs:422-435 | the first suitable index from the start point, absent iff none is |
| Pyroclastic.MemoryTypeIndexChoice | simple_start_ash/src/pyroclastic.rs:422-435 | within the 32 types: the smallest index whose bit is set and whose flags contain the requested ones, absent iff none qualifies |
| Pyroclastic.FindMemorytypeIndex | simple_start_ash/src/pyroclastic.rs:422-435 | the search loop yields exactly that choice, aborting when the count exceeds 32 |
| Pyroclastic.CreateImageOwned | simple_start_ash/src/pyroclastic.rs:135-173 | image-creation errors propagate; success holds the created image and the range, on this device |
| Pyroclastic.CreateImageOwnedMemory | simple_start_ash/src/pyroclastic.rs:146-166 | the memory is allocated at the requirement's size in the first suitable type and bound at offset 0 |
| Pyroclastic.CreateImageOwnedNoMemoryType | simple_start_ash/src/pyroclastic.rs:150-155 | with no suitable type the error is "Unable to find suitable memory index for image." |
| Pyroclastic.PoolAllocateInfo | simple_start_ash/src/pyroclastic.rs:325-326 | the request's pool is replaced by the wrapper's pool, the rest kept |
| Pyroclastic.AllocateCommandBuffersTracked | simple_start_ash/src/pyroclastic.rs:321-339 | one wrapper per allocated buffer, in order, on the pool's device; errors propagate |
| Pyroclastic.CommandBufferWriter.constructor | simple_start_ash/src/pyroclastic.rs:183-186 | a writer starts unfinished |
| Pyroclastic.CommandBufferWriter.Drop | simple_start_ash/src/pyroclastic.rs:230-238 | dropping succeeds iff the writer was finished, and aborts otherwise |
| Pyroclastic.CommandBufferWriter.Finish | simple_start_ash/src/pyroclastic.rs:241-244 | marks the writer finished and issues one end, returning the driver's answer |
| Pyroclastic.CommandBufferWriter.ImagebufLayoutBarrier | simple_start_ash/src/pyroclastic.rs:246-272 | issues exactly one transfer-to-transfer barrier moving the image between the layouts |
| AshState.LastGraphicsFamily | simple_start_ash/src/lib.rs:164-177 | the last graphics-capable family, absent iff none is |
| AshState.FirstGraphicsDeviceFrom | simple_start_ash/src/lib.rs:154-178 | the first device with a graphics family, absent iff none has one |
| AshState.DeviceChoice | simple_start_ash/src/lib.rs:151-182 | no choice iff no device has a graphics family |
| AshState.DeviceChoiceIsFirstDeviceLastFamily | simple_start_ash/src/lib.rs:151-182 | the choice is the first such device and its last graphics family |
| AshState.SelectDevice | simple_start_ash/src/lib.rs:151-178 | the nested loops set both results together, exactly to that choice |
| AshState.OrEmpty | simple_start_ash/src/lib.rs:48-58 | a null string becomes the empty string |
| AshState.DebugCallback | simple_start_ash/src/lib.rs:38-74 | exact-equality dispatch of the four severities, everything else to error as unhandled; fields copied; always returns false |
| AshState.CombinedSeverityUnhandled | simple_start_ash/src/lib.rs:59-71 | a word with two severity bits is logged as unhandled error |
| AshState.NewState | simple_start_ash/src/lib.rs:78-255 | succeeds iff every driver call succeeds and at least two command buffers come back; otherwise the first failure in call order: `?` errors carry the driver's code, `unwrap`/`expect` and the command-buffer indexing abort with their messages, and no qualifying device gives "could not find device"; success keeps the size and takes command buffers 0 and 1 of two primary ones |
| AshState.NewStateUsesChosenFamily | simple_start_ash/src/lib.rs:181-226 | the device, queue 0 and resettable pool all use the chosen device and family |
| AshState.Save | simple_start_ash/src/lib.rs:257-259 | always aborts |
| Vk.Try | simple_start_ash/src/lib.rs:127 | `?`: the value, or the error code as the returned error |
| Vk.Unwrap | simple_start_ash/src/lib.rs:145 | the value, or an abort naming the code |
| Vk.Expect | simple_start_ash/src/lib.rs:149 | the value, or an abort with the message and the code |

## Left out

- Floating-point arithmetic: the TRS matrix product in `to_glam`, `transform_point3`, the cross product and normalisation of face normals, and the first 3D demo's model and camera matrices. `Mat4` is a free monoid, and vectors are opaque.
- `bevy_mikktspace::generate_tangents`: only its writes through `set_tangent_encoded` are modelled, given as a list.
- File and image I/O: `gltf::import`, image decoding and PNG saving, buffer mapping and `device.poll` in `save`, and logging and `println!`.
- Async and concurrency: `Mutex`, `Arc` and the `Deref` wrappers in the ash helpers, and `pollster`. Rust's ownership of a finished writer is not modelled either.
- Shader loading (`retrieve_embedded_shader`) and pipeline descriptors. Vertex layouts are modelled only for the position layout.
- The first 3D demo's `get_current_time_f64` and `get_angle_f32` helpers, its camera uniform, and the texture coordinates it reads and drops. Its render pass's `set_pipeline` and camera `set_bind_group(0, ..)` commands are not among the commands First3d.Render records.
- `get_device_queue_tracked`, the fence and semaphore wrappers, and `to_string_lossy` in the ash helpers. `create_image_tracked` and `allocate_memory_tracked` are folded into `CreateImageOwned`.
- The dead `if false` branch of the checkerboard generator: only the branch that runs is modelled.
- LoaderObjects.LoadGltfObjects: requires a rank witnessing that the node graph has no cycle. On a cyclic graph, which glTF forbids, the source loops forever.
- LoaderTraversal.Walk: the same acyclicity requirement, for the same reason.
- RenderTarget.Target.Save: the `u32` overflow of 4·w and of 4·w·h is modelled as an abort, as in a debug build; a release build would wrap instead.

## Findings

| source | as written | input that shows it | evidently intended | confidence | as-written member | corrected member |
|---|---|---|---|---|---|---|
| render_engine/src/target.rs:189 | `rows_per_image: Some(width)` in the readback copy of `save` | a 64×128 texture target: 64 rows per image against a copy 128 rows high | `rows_per_image: Some(height)` | high; not executed | RenderTarget.SaveLayoutAsWritten (RenderTarget.SaveLayoutAsWrittenTooFewRows, RenderTarget.SaveLayoutAsWrittenFitsIff, RenderTarget.Target.Save) | RenderTarget.SaveLayout (RenderTarget.SaveLayoutFits) |
