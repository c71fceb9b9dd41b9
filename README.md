# graphite-rs rendering core in Dafny

This project models the exact, structure-level behaviour of the graphite-rs
wgpu demo. It covers:

- **Meshes.** The constant circle and pentagon tables, the `Geometry` record,
  and the UV sphere. The sphere has a 65 x 65 vertex grid and a boustrophedon
  triangle-strip index list.
- **Records and buffers.** The uniform records and their byte layout, the
  OpenGL-to-wgpu clip-space remap, and the vertex buffer layouts.
- **Schemas and bind groups.** The pipelines' bind-group schemas and the bind
  groups built against them, plus the shader-module naming by tag.
- **The three pipelines.** Simple, PBR and equirect: their pipeline
  descriptors, their states and their render passes.
- **The camera.** The key-to-flag controller and the camera's eye movement.
- **The application.** `State`: mode switching, geometry and texture cycling,
  uniform updates, rendering and the exit and resize routing of the event loop.

How the model is built:

- **GPU buffers** are `array<Byte>`. Writing a buffer and copying one buffer
  into another are in-place array updates. This lets the staging protocol
  (copy 144 bytes from offset 0 of a fresh buffer to offset 0 of the
  persistent buffer) be proved to replace exactly that prefix.
- **Descriptors.** Layouts, bind groups, pipelines and recorded render passes
  are plain datatypes. `Wgpu.CreateBindGroup` checks a bind group against its
  schema the way the validation layer does.
- **f32 values** are kept as their 32-bit patterns and serialised
  little-endian.
- **Exact constants** (0.5, 2.5, row / 7, the camera defaults) are `real`.
- **Functions supplied as parameters.** Rounding to f32, f32 arithmetic,
  trigonometry, `normalize`, `look_at`, `perspective` and the matrix product
  are parameters of the operations that use them.

Modules follow the source files:

| Module | Source file |
|---|---|
| `ConstMesh` | `src/const_mesh.rs` |
| `Geometry` | `src/geometry.rs` |
| `RenderTypes` | `src/render_types.rs` |
| `Pipelines` | `src/pipelines/mod.rs` |
| `SimplePipeline` | `src/pipelines/simple.rs` |
| `PbrPipeline` | `src/pipelines/pbr.rs` |
| `EquirectPipeline` | `src/pipelines/equirect.rs` |
| `Cameras` | `src/camera.rs` |
| `App` | `src/main.rs` |

Supporting modules:

- `Wgpu` holds the descriptor and command model of the GPU library.
- `Winit` holds the window events.
- `Wrappers` holds `Option` and `Result`.

## Model

| member | source | states |
|---|---|---|
| RenderTypes.RemapAction | src/render_types.rs:10-15 | the column-major remap matrix sends (x, y, z, w) to (x, y, 0.5z + 0.5w, w) |
| RenderTypes.RemapDepthRange | src/render_types.rs:10-15 | with w = 1, a depth in [-1, 1] is sent into [0, 1]; x, y and w are unchanged |
| RenderTypes.RemapKeepsDepthOrder | src/render_types.rs:10-15 | with w = 1, the remap keeps the strict order of depths |
| RenderTypes.RemapRows | src/render_types.rs:10-15 | premultiplying by the remap keeps rows x, y and w of any matrix, and replaces the z row by the mean of the z and w rows |
| RenderTypes.F32RoundTrip | src/render_types.rs:79-88 | decoding the four little-endian bytes of an f32 bit pattern gives the pattern back |
| RenderTypes.F32BytesRoundTrip | src/render_types.rs:79-88 | any four bytes are the encoding of the pattern they decode to |
| RenderTypes.WordsRoundTrip | src/render_types.rs:79-88 | a sequence of f32 words survives serialisation to bytes and back |
| RenderTypes.BytesRoundTrip | src/render_types.rs:79-88 | a byte string whose length is a multiple of 4 survives decoding to words and back |
| RenderTypes.WordsBytesInjective | src/render_types.rs:79-88 | different word sequences never share a byte image |
| RenderTypes.Mat4WordsRoundTrip | src/render_types.rs:79-88 | a 4x4 matrix read back from its 16 column-major words is the same matrix |
| RenderTypes.MvpWords | src/render_types.rs:79-88 | the repr(C) record is 36 words: view_position in words 0-3, view_proj in words 4-19, model in words 20-35 |
| RenderTypes.MvpRoundTrip | src/render_types.rs:79-88 | the 144 bytes of an MVP record read back as the same record |
| RenderTypes.MvpBytesInjective | src/render_types.rs:79-88 | two MVP records with the same bytes are equal |
| RenderTypes.NewMvp | src/render_types.rs:92-99 | the fresh record has a zero view position and identity view_proj and model matrices |
| RenderTypes.ToHomogeneous | src/render_types.rs:102 | the eye becomes the point (x, y, z, 1) |
| RenderTypes.UpdateViewProj | src/render_types.rs:101-104 | the view position and view_proj are replaced by the camera's; model is unchanged |
| RenderTypes.UpdateModel | src/render_types.rs:106-108 | only model is replaced; view position and view_proj are unchanged |
| RenderTypes.F32Neg | src/render_types.rs:110-118 | f32 negation flips the sign bit and keeps the other 31 bits |
| RenderTypes.RotationZ | src/render_types.rs:110-118 | the rotation about z has columns (cos, -sin, 0, 0), (sin, cos, 0, 0) and the identity's last two columns |
| RenderTypes.UpdateModelRotation | src/render_types.rs:110-118 | model becomes the z rotation by the given cos and sin; the camera fields are unchanged |
| RenderTypes.Vec4sWords | src/render_types.rs:121-130 | a list of 4-vectors flattens to 4 words each, in order |
| RenderTypes.PbrFsBytes | src/render_types.rs:121-130 | the PBR fragment record (four light positions and four colours) serialises to its fixed byte size |
| RenderTypes.TransformsBytes | src/render_types.rs:141-148 | n transform records serialise to n times the record size |
| RenderTypes.MaterialInfosBytes | src/render_types.rs:132-139 | n material records serialise to n times the record size |
| RenderTypes.AttrArray | src/render_types.rs:64-74 | attribute i has the i-th format and location base + i; offsets start at the base and advance by each format's size |
| RenderTypes.VertexPlainDesc | src/render_types.rs:23-31 | one Float3 attribute at location 0, but a stride of the VertexTex size (20), not the 12 bytes the attribute covers |
| RenderTypes.VertexTexDesc | src/render_types.rs:43-51 | Float3 at 0 and Float2 at location 1 offset 12; the attributes fill the 20-byte stride exactly |
| RenderTypes.VertexTexNormalDesc | src/render_types.rs:64-74 | Float3, Float2 and Float3 at locations 0 to 2; the attributes fill the 32-byte stride exactly |
| ConstMesh.CircleIsTriangleList | src/const_mesh.rs:5-46 | 9 vertices and 24 indices; the index count is a multiple of 3 and every index is below 9 |
| ConstMesh.PentagonIsTriangleList | src/const_mesh.rs:48-71 | 5 vertices and 9 indices; the index count is a multiple of 3 and every index is below 5 |
| ConstMesh.CircleIsClosedFan | src/const_mesh.rs:44-46 | triangle t is (0, t+1, t+2) for t < 7, and the last triangle (0, 8, 1) closes the fan |
| ConstMesh.PentagonIsFanAboutE | src/const_mesh.rs:71 | every pentagon triangle has vertex 4 (E) as a corner |
| ConstMesh.MeshesAreFlat | src/const_mesh.rs:5-69 | every vertex of both tables has z = 0 |
| Geometry.New | src/geometry.rs:11-29 | the buffers hold the given vertices and indices, and the counts are their lengths as u32 |
| Geometry.SphereVertices | src/geometry.rs:40-53 | the nested loops emit 65 x 65 = 4225 vertices; grid point (x, y) is at y*65 + x with its position as normal and (x/64, y/64) as texture coordinate |
| Geometry.SphereStripIndices | src/geometry.rs:55-67 | the nested loops emit 64 x 130 = 8320 indices, entry k of row y being the strip index of (y, k) |
| Geometry.CreateSpherePbr | src/geometry.rs:31-69 | the sphere geometry has 4225 vertices and 8320 indices laid out as above, all in range of the vertex buffer |
| Geometry.StripIndexInRows | src/geometry.rs:58-64 | every index emitted for row y lies in [y*65, (y+2)*65) |
| Geometry.StripIndexInRange | src/geometry.rs:58-64 | every strip index is below 4225, and so fits in u16 |
| Geometry.StripRowOrder | src/geometry.rs:56-65 | even rows emit (y*65+x, (y+1)*65+x) with x ascending; odd rows emit (y+1)*65+x first with x descending |
| Geometry.StripRowsJoin | src/geometry.rs:56-65 | the last vertex of one row's run of the strip is the vertex the next row's run turns on |
| Geometry.SphereIndicesInRange | src/geometry.rs:58-64 | a geometry with the sphere's index layout has every index below its vertex count and below 2^16 |
| Pipelines.SingleUniformBufferLayout | src/pipelines/mod.rs:8-17 | exactly one entry: slot 0, vertex stage only, a non-dynamic uniform buffer |
| Pipelines.SingleTextureLayout | src/pipelines/mod.rs:19-39 | exactly two fragment-stage entries in slot order: a non-multisampled 2D texture, then a non-comparison sampler |
| Pipelines.SingleTextureBindGroupConforms | src/pipelines/mod.rs:41-61 | the view-then-sampler group matches the texture schema slot by slot and kind by kind, and does not match the uniform schema |
| Pipelines.SingleUniformBindGroupConforms | src/pipelines/mod.rs:63-80 | the single-buffer group matches the uniform schema exactly when the range 0..size lies in the buffer, and never matches the texture schema |
| Pipelines.CompiledModulesOfOneTag | src/pipelines/mod.rs:82-106 | the first source becomes a vertex module and the second a fragment module, both with entry point "main" and with different names |
| Pipelines.CompiledNamesIdentifyTag | src/pipelines/mod.rs:100-103 | different tags never give a module the same name |
| Wgpu.FirstMismatch | src/pipelines/mod.rs:69-79 | there is no mismatch exactly when every binding from the given slot on has its entry's slot and a resource of its entry's kind |
| Wgpu.CreateBindGroup | src/pipelines/mod.rs:69-79 | bind-group creation succeeds exactly when the bindings conform to the layout, and then returns that group |
| Wgpu.CreateBufferWithData | src/geometry.rs:15-20 | a fresh buffer holding exactly the given bytes |
| Wgpu.CopyBufferToBuffer | src/pipelines/simple.rs:172-178 | size bytes of the source replace those at the destination offset; the rest of the destination is unchanged |
| SimplePipeline.NewSimpleLayout | src/pipelines/simple.rs:17-29 | group 0 is the uniform schema and group 1 the texture schema |
| SimplePipeline.NewSimple | src/pipelines/simple.rs:31-91 | a triangle-list, counter-clockwise pipeline with no depth buffer over VertexTex vertices and the layout's two groups |
| SimplePipeline.SimpleShaderModules | src/pipelines/simple.rs:80-91 | the vertex and fragment modules are the given sources named "simple_vs.glsl" and "simple_fs.glsl", entry "main" |
| SimplePipeline.Step | src/pipelines/simple.rs:143-151 | a cyclic step on a non-empty list stays below its length |
| SimplePipeline.Steps | src/pipelines/simple.rs:143-151 | k cyclic steps stay below the length, unless no step is taken |
| SimplePipeline.StepWraps | src/pipelines/simple.rs:143-151 | one step adds one, and wraps from the last index to 0 |
| SimplePipeline.StepsCountUp | src/pipelines/simple.rs:143-151 | k steps that do not reach the end just add k |
| SimplePipeline.StepsCompose | src/pipelines/simple.rs:143-151 | a + b steps are a steps followed by b steps |
| SimplePipeline.CycleReturns | src/pipelines/simple.rs:143-151 | len steps return to the starting index |
| SimplePipeline.CycleVisitsAll | src/pipelines/simple.rs:143-151 | every index is reached from any start within len steps |
| SimplePipeline.StepOnSingletonIsNoOp | src/pipelines/simple.rs:143-151 | on a one-element list a step changes nothing |
| SimplePipeline.SimpleState.constructor | src/pipelines/simple.rs:183-208 | empty geometry and texture lists, both indices 0, and the uniforms with the camera applied held in a fresh buffer |
| SimplePipeline.SimpleState.UniformBufferReadsBack | src/pipelines/simple.rs:183-208 | the uniform buffer decodes to the current record |
| SimplePipeline.SimpleState.AddTexture | src/pipelines/simple.rs:210-229 | returns the old length; appends exactly the (texture, conforming bind group) pair; nothing else changes |
| SimplePipeline.SimpleState.AddGeometry | src/pipelines/simple.rs:231-241 | returns the old length; appends exactly the new geometry; earlier entries, textures and both indices are unchanged |
| SimplePipeline.SimpleState.IncGeometryIndex | src/pipelines/simple.rs:143-146 | the geometry index becomes (old + 1) mod len, below len; the lists and the texture index are unchanged |
| SimplePipeline.SimpleState.IncTextureIndex | src/pipelines/simple.rs:148-151 | only the texture index changes, to (old + 1) mod len |
| SimplePipeline.SimpleState.UpdateUniforms | src/pipelines/simple.rs:153-181 | the record takes the camera and the model rotation, and after the 144-byte staging copy the buffer holds exactly its bytes; lists and indices are unchanged |
| SimplePipeline.SimpleState.RenderPass | src/pipelines/simple.rs:99-127 | the pass draws the selected geometry, with the uniform group at 0 and the selected texture's group at 1 |
| SimplePipeline.SimpleState.RenderPassIsWellFormed | src/pipelines/simple.rs:99-127 | with the Simple pipeline both groups match their schemas, and the draw of indices 0..n with instances 0..1 stays in range and uses no depth buffer |
| PbrPipeline.Clamp | src/pipelines/pbr.rs:13-22 | the step-by-step clamp returns min below min, max above max, and the value otherwise |
| PbrPipeline.ClampedInRange | src/pipelines/pbr.rs:13-22 | when min <= max the result lies in [min, max], and it equals the value exactly when the value already does |
| PbrPipeline.TranslationMovesOrigin | src/pipelines/pbr.rs:420-424 | the translation matrix takes the origin to the translation vector |
| PbrPipeline.Unzip | src/pipelines/pbr.rs:435 | two parallel lists as long as the input, holding the first and second components in order |
| PbrPipeline.MakeInstances | src/pipelines/pbr.rs:406-436 | both returned lists have exactly 49 entries |
| PbrPipeline.GridMapAt | src/pipelines/pbr.rs:406-436 | entry row*7 + col of the row-major grid is the value at (row, col) |
| PbrPipeline.MakeInstancesGrid | src/pipelines/pbr.rs:406-436 | the instance lists are the 7x7 grid in row-major order |
| PbrPipeline.InstanceMaterial | src/pipelines/pbr.rs:413-430 | material (row, col) is (row/7, clamp(col/7, 0.05, 1), 1, 0): metallic is constant along a row and roughness lies in [0.05, 1] |
| PbrPipeline.InstanceTranslation | src/pipelines/pbr.rs:420-424 | sphere (row, col) sits at ((col-3)*2.5, (row-3)*2.5, 0), and the grid is symmetric about the origin |
| PbrPipeline.TextureLayout | src/pipelines/pbr.rs:39-105 | eight fragment-stage slots in order, alternating 2D texture and sampler |
| PbrPipeline.UniformLayout | src/pipelines/pbr.rs:107-143 | slot 0 is a uniform for the vertex and fragment stages, slot 1 a fragment uniform, slot 2 a vertex read-only storage buffer, slot 3 a fragment read-only storage buffer |
| PbrPipeline.NewPbrLayout | src/pipelines/pbr.rs:145-158 | group 0 is the uniform schema and group 1 the texture schema |
| PbrPipeline.UniformBindGroupConforms | src/pipelines/pbr.rs:160-206 | the four-buffer group matches the uniform schema exactly when each range 0..size lies inside its buffer |
| PbrPipeline.TextureBindGroupConforms | src/pipelines/pbr.rs:208-255 | the texture group matches its schema, each slot pair holds one texture's view and sampler, and the textures are albedo, roughness, AO and normals |
| PbrPipeline.MetallicNeverBound | src/pipelines/pbr.rs:208-255 | a metallic texture distinct from the other four is bound at no slot |
| PbrPipeline.NewPbr | src/pipelines/pbr.rs:257-325 | a clockwise triangle-strip pipeline over VertexTexNormal, with a depth buffer written and tested with Less, over the layout's two groups |
| PbrPipeline.PbrShaderModules | src/pipelines/pbr.rs:315-325 | the modules are the given sources named "pbr_vs.glsl" and "pbr_fs.glsl", entry "main" |
| PbrPipeline.StageUniforms | src/pipelines/pbr.rs:581-597 | the first 144 bytes of the MVP buffer become the record's bytes and read back as the record; the rest is unchanged |
| PbrPipeline.PassRecord | src/pipelines/pbr.rs:363-403 | the pass clears depth to 1.0 and stencil to 0 and draws the geometry's whole index list |
| PbrPipeline.Render | src/pipelines/pbr.rs:363-403 | the uniforms are staged before the pass is recorded; the MVP buffer then holds the record's bytes in its first 144 bytes and nothing else changes |
| PbrPipeline.CreateUniforms | src/pipelines/pbr.rs:523-559 | the uniform group conforms, binds the MVP and fragment buffers whole, and binds fresh storage buffers holding the transforms and materials, sized by the length of the transform list |
| PbrPipeline.PbrState.constructor | src/pipelines/pbr.rs:459-575 | the record with the camera applied and its bytes, the initial fragment parameters, the 49 instances in storage buffers, and the UV sphere of create_sphere_pbr: the 65 x 65 row-major vertex grid and the 8320-index strip, entry k of row y being its strip index |
| PbrPipeline.PbrState.Resize | src/pipelines/pbr.rs:577-579 | only the depth texture is replaced |
| PbrPipeline.PbrState.UpdateMvp | src/main.rs:143-144 | the record takes the camera; the depth texture and the rest of the state are unchanged |
| PbrPipeline.PbrState.NewRenderPass | src/pipelines/pbr.rs:343-361 | the pass draws the sphere with one instance per transform |
| PbrPipeline.PbrState.RenderPassIsWellFormed | src/pipelines/pbr.rs:343-403 | with the PBR pipeline both groups match, depth clears to 1.0 and stencil to 0, and the draw covers all 8320 indices for 49 instances, in range |
| EquirectPipeline.NewEquirectLayout | src/pipelines/equirect.rs:17-29 | group 0 is the uniform schema and group 1 the single-texture schema |
| EquirectPipeline.NewEquirect | src/pipelines/equirect.rs:31-89 | a triangle-list, counter-clockwise pipeline with no depth-stencil state over VertexPlain vertices |
| EquirectPipeline.EquirectModulesNamedAsPbr | src/pipelines/equirect.rs:80-89 | the equirect modules, compiled under tag "pbr", carry the PBR modules' names and never the Simple ones |
| EquirectPipeline.PassRecord | src/pipelines/equirect.rs:97-125 | the pass binds group 0 only, with no depth attachment, no buffers and no draw |
| EquirectPipeline.EquirectState.constructor | src/pipelines/equirect.rs:136-157 | the fresh record with the camera applied, so model stays the identity; its bytes in a fresh buffer bound at slot 0 over 0..144 |
| EquirectPipeline.EquirectState.UniformsConformAndReadBack | src/pipelines/equirect.rs:136-157 | the uniform group matches the uniform schema and the buffer decodes to the current record |
| EquirectPipeline.EquirectState.UpdateUniforms | src/pipelines/equirect.rs:159-187 | the record takes the camera and the rotation, and after the 144-byte staging copy the buffer holds exactly its bytes |
| EquirectPipeline.EquirectState.RenderPass | src/pipelines/equirect.rs:97-125 | the state's pass binds only its uniform group at 0 and draws nothing |
| EquirectPipeline.EquirectState.RenderPassBindsOnlyGroupZero | src/pipelines/equirect.rs:97-125 | with the equirect pipeline, group 0 is set and matches, group 1 is left unset, and there are no buffers, no draw and no depth |
| Cameras.Camera.constructor | src/camera.rs:21-31 | eye (0, 0, 5), target the origin, up +Y, the surface size as aspect, fovy 45, znear 0.1, zfar 100 |
| Cameras.ViewProjectionRemapsDepth | src/camera.rs:15-19 | with the exact product, the view-projection is the projection with its depth row remapped to [0, 1], applied after the view |
| Cameras.InitialCameraAxes | src/camera.rs:21-31 | the initial camera looks down -z, and its right-hand axis is +x |
| Cameras.Set | src/camera.rs:53-95 | setting a flag gives it the value and leaves the other five flags unchanged |
| Cameras.ApplicationKeysUnmapped | src/camera.rs:64-91 | Space, T, R, Escape and every unnamed key move nothing |
| Cameras.HandleChangesOneFlag | src/camera.rs:53-95 | an event is consumed exactly when it is a key with a mapped code; that key's flag then becomes "pressed" and the others are unchanged; an unconsumed event changes no flag |
| Cameras.SetTwice | src/camera.rs:53-95 | setting a flag twice keeps only the second value |
| Cameras.PressThenRelease | src/camera.rs:64-89 | a press followed by a release of a mapped key leaves its flag false and the others as before |
| Cameras.HandleIdempotent | src/camera.rs:53-95 | handling the same event twice is the same as handling it once |
| Cameras.StepThenStepBack | src/camera.rs:103-114 | stepping forward when one flag is set and back when the opposite is set adds the net displacement along that axis |
| Cameras.MovedEyeIgnoresVertical | src/camera.rs:97-115 | the up and down flags never affect the eye; with no horizontal flag set, or with all four set, the eye stays |
| Cameras.CameraController.constructor | src/camera.rs:46-51 | stores the speed and clears all six flags |
| Cameras.CameraController.ProcessEvents | src/camera.rs:53-95 | the new flags and the consumed result are those of the key-to-flag map applied to the old flags |
| Cameras.CameraController.UpdateCamera | src/camera.rs:97-115 | the eye moves one speed step along forward and right as the flags say; nothing else changes |
| App.Command | src/main.rs:107-132 | Space, T and R presses are exactly the events that cycle the geometry, cycle the texture and toggle the pipeline |
| App.ControllerKeysAreNotCommands | src/main.rs:97-139 | an event the camera controller consumes is no application command, and a command key passes the controller untouched |
| App.ToggleTwiceRestores | src/main.rs:126-132 | R flips the mode and keeps both indices; pressing it twice restores the state |
| App.PbrModeIgnoresCycling | src/main.rs:107-125 | in PBR mode an event leaves the selection unchanged exactly when it is not the R toggle |
| App.SimpleModeCycles | src/main.rs:107-125 | in Simple mode k presses of Space (of T) step the geometry (texture) index k times and change nothing else |
| App.SimpleModeShowsEveryGeometry | src/main.rs:107-116 | in Simple mode, as many Space presses as there are geometries return to the start and show every geometry on the way |
| App.ExitAndResizeAreNeverConsumed | src/main.rs:194-214 | whatever keys are held, exit and resize events are never consumed by input, and no event both resizes and exits |
| App.BuiltInMeshesInRange | src/main.rs:67-68 | the pentagon and circle geometries added at start-up have every index in range |
| App.PopulatedSimpleState | src/main.rs:55-68 | the Simple state holds the two textures (tree, face) and the two geometries (pentagon, circle), with both indices 0 |
| App.NewCamera | src/main.rs:52 | the default camera for the surface size, with its eye and view-projection as f32 |
| App.NewPbrState | src/main.rs:70-71 | a valid PBR state over the material, whose record has the camera applied, holding the UV sphere's vertex grid and 8320-index strip |
| App.NewPipelineStates | src/main.rs:54-71 | both pipeline states are valid and distinct, start from the same record, and give cycling two entries per list |
| App.State.constructor | src/main.rs:39-88 | PBR mode with both indices 0, a zero model angle, the model speed, the default camera and a cleared controller; the two pipeline states share the initial record |
| App.State.Resize | src/main.rs:90-95 | the size and the PBR depth texture are replaced; the selection, clear colour, model angle, textures and both uniform records are unchanged |
| App.State.Input | src/main.rs:97-139 | the controller's flags follow the key map; consumed means the controller took the event or it is cursor motion; the selection follows the command; cursor motion sets red and green of the clear colour; size, model angle, textures, depth texture and both uniform records are unchanged |
| App.State.Update | src/main.rs:141-154 | the eye moves; in PBR mode only the PBR record takes the camera; in Simple mode the angle advances by the model speed and the Simple uniforms take the camera and the new rotation; the selection, clear colour, size, textures and depth texture are unchanged |
| App.State.UpdateUniforms | src/main.rs:143-153 | in PBR mode only the PBR record takes the camera; in Simple mode only the model angle advances and the Simple record takes the camera and the new rotation; the selection, clear colour, size, textures and depth texture are unchanged |
| App.State.Render | src/main.rs:156-169 | PBR mode stages the uniforms and records the 49-instance sphere pass; Simple mode records the selected geometry's pass; each pass matches its pipeline and draws in range |
| App.State.HandleWindowEvent | src/main.rs:190-216 | the loop exits exactly on close or an Escape press; resize events replace the size and depth texture and others keep them; the flags, selection and clear colour change as input says; the model angle, textures and both uniform records are unchanged |

## Left out

- `src/model.rs` is not part of this model. The source does not compile it, and it is only a wrapper over glTF loading.
- The GPU driver is left out: device, queue submission, the swap chain and the `Graphics` wrapper. Buffers are byte arrays and pipelines are descriptor values.
- A copy recorded on a command encoder is modelled as taking effect immediately, in recording order.
- Shader compilation is left out because it calls a foreign compiler. Only the module naming and the shader kinds are modelled.
- Reading asset files and decoding images are left out. The textures, including the depth texture, are parameters. The HDR environment map that is loaded but never used is not modelled.
- Trigonometry, `normalize`, `look_at`, `perspective` and the cgmath matrix product are function parameters, because floating point is not modelled.
- Rounding to f32, f32 addition, f32 cos/sin and the f64 division in cursor handling are function parameters too. Camera motion is computed in exact reals.
- The sphere's vertex positions use the trigonometric parameters. Their values are not computed.
- Cameras.Camera.BuildViewProjectionMatrix: has no contract of its own, because its product is a parameter. Cameras.ViewProjectionRemapsDepth states its meaning for the exact product.
- The camera's aspect ratio is kept as the two surface dimensions rather than their f32 quotient.
- The event loop is left out: `RedrawRequested`, `MainEventsCleared` and the window-id check. Only the routing of window events to `input`, exit and resize is modelled.
- SimplePipeline.SimpleState.IncGeometryIndex: requires a non-empty list, where the source divides by zero and panics.
- SimplePipeline.SimpleState.IncTextureIndex: requires a non-empty list, where the source divides by zero and panics.
- SimplePipeline.SimpleState.RenderPass: requires both indices to be in range, where the source panics on an out-of-range index. Start-up adds two entries to each list, so this always holds.
- The colour-target, blend and multisample fields of the pipeline descriptors are not modelled.
- Two quirks of the source are kept deliberately:
  - the VertexPlain layout uses the VertexTex stride;
  - the equirect shaders are compiled under the tag "pbr". The equirect pass draws nothing, so this has no visible effect.
