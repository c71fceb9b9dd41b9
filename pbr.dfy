// The PBR pipeline: a 7 x 7 grid of instanced spheres whose material varies
// with row (metallic) and column (roughness), its binding schemas and bind
// groups, and its state (src/pipelines/pbr.rs).
module PbrPipeline {
  import opened Wrappers
  import opened RenderTypes
  import opened Geometry
  import opened Wgpu
  import opened Pipelines

  // ---------------------------------------------------------------------------
  // clamp

  /** The value limited to [min, max]; when min > max every value is sent to max. */
  function Clamped(value: real, min: real, max: real): real
  {
    if min > max then max
    else if value < min then min
    else if value > max then max
    else value
  }

  /** clamp: raise to min, then lower to max. */
  method Clamp(value: real, min: real, max: real) returns (x: real)
    ensures x == Clamped(value, min, max)
  {
    x := value;
    if x < min {
      x := min;
    }
    if x > max {
      x := max;
    }
  }

  /** When min <= max the result lies in [min, max], and is the value itself exactly when the value does. */
  lemma ClampedInRange(value: real, min: real, max: real)
    requires min <= max
    ensures min <= Clamped(value, min, max) <= max
    ensures Clamped(value, min, max) == value <==> min <= value <= max
  {
  }

  // ---------------------------------------------------------------------------
  // make_instances

  const ROWS: int := 7
  const COLS: int := 7
  const SPACE: real := 2.5
  const INSTANCE_COUNT: nat := 49

  /** cgmath's Matrix4::from_translation: the identity with the translation in the fourth column. */
  function Translation(v: Vec3<real>): (m: Mat4<real>)
  {
    Mat4(Vec4(1.0, 0.0, 0.0, 0.0), Vec4(0.0, 1.0, 0.0, 0.0), Vec4(0.0, 0.0, 1.0, 0.0), Vec4(v.x, v.y, v.z, 1.0))
  }

  /** The point a translation matrix moves the origin to. */
  lemma TranslationMovesOrigin(v: Vec3<real>)
    ensures MulVec(Translation(v), Vec4(0.0, 0.0, 0.0, 1.0)) == Vec4(v.x, v.y, v.z, 1.0)
  {
  }

  /**
   * The instance at (row, col): metallic row / 7, roughness col / 7 clamped to
   * [0.05, 1], ambient occlusion 1, and a translation of 2.5 per step from the
   * centre (3, 3); ROWS / 2 and COLS / 2 are integer divisions.
   */
  function Instance(row: nat, col: nat): (TransformRaw, MaterialInfoRaw)
  {
    var metallic := row as real / ROWS as real;
    var roughness := Clamped(col as real / COLS as real, 0.05, 1.0);
    var translation := Vec3((col - COLS / 2) as real * SPACE, (row - ROWS / 2) as real * SPACE, 0.0);
    (TransformRaw(Translation(translation)), MaterialInfoRaw(Vec4(metallic, roughness, 1.0, 0.0)))
  }

  /** The inner map: f(row, c) for the columns c = col..cols-1 of one row. */
  function RowMap<T>(f: (nat, nat) -> T, row: nat, col: nat, cols: nat): (r: seq<T>)
    ensures |r| == if col <= cols then cols - col else 0
    decreases cols - col
  {
    if col >= cols then [] else [f(row, col)] + RowMap(f, row, col + 1, cols)
  }

  /** The flat_map over rows 0..rows-1, each row's columns 0..COLS-1 in order. */
  function GridMap<T>(f: (nat, nat) -> T, rows: nat): (r: seq<T>)
    ensures |r| == rows * 7
  {
    if rows == 0 then [] else GridMap(f, rows - 1) + RowMap(f, rows - 1, 0, COLS)
  }

  /** Iterator::unzip: the first and second components, in order. */
  function Unzip<A, B>(s: seq<(A, B)>): (r: (seq<A>, seq<B>))
    ensures |r.0| == |s| && |r.1| == |s|
    ensures forall i :: 0 <= i < |s| ==> r.0[i] == s[i].0 && r.1[i] == s[i].1
  {
    if s == [] then ([], [])
    else
      var rest := Unzip(s[1..]);
      ([s[0].0] + rest.0, [s[0].1] + rest.1)
  }

  /** make_instances: the (row, col) instances in row-major order, unzipped. */
  function MakeInstances(): (r: (seq<TransformRaw>, seq<MaterialInfoRaw>))
    ensures |r.0| == |r.1| == INSTANCE_COUNT
  {
    Unzip(GridMap(Instance, ROWS))
  }

  lemma {:induction false} RowMapAt<T>(f: (nat, nat) -> T, row: nat, col: nat, cols: nat, c: nat)
    requires col <= c < cols
    ensures RowMap(f, row, col, cols)[c - col] == f(row, c)
    decreases cols - col
  {
    if c > col {
      RowMapAt(f, row, col + 1, cols, c);
    }
  }

  /** The last row of the flat map comes last. */
  lemma GridMapLast<T>(f: (nat, nat) -> T, rows: nat, c: nat)
    requires 0 < rows && c < COLS
    ensures GridMap(f, rows)[(rows - 1) * 7 + c] == f(rows - 1, c)
  {
    var init, last := GridMap(f, rows - 1), RowMap(f, rows - 1, 0, COLS);
    assert GridMap(f, rows) == init + last;
    RowMapAt(f, rows - 1, 0, COLS, c);
  }

  /** The rows before the last keep their entries. */
  lemma GridMapInit<T>(f: (nat, nat) -> T, rows: nat, i: nat)
    requires 0 < rows && i < (rows - 1) * 7
    ensures GridMap(f, rows)[i] == GridMap(f, rows - 1)[i]
  {
    var init, last := GridMap(f, rows - 1), RowMap(f, rows - 1, 0, COLS);
    assert GridMap(f, rows) == init + last;
  }

  /** Entry r * 7 + c of the flat map is f(r, c). */
  lemma {:induction false} GridMapAt<T>(f: (nat, nat) -> T, rows: nat, r: nat, c: nat)
    requires r < rows && c < COLS
    ensures GridMap(f, rows)[r * 7 + c] == f(r, c)
  {
    if r == rows - 1 {
      GridMapLast(f, rows, c);
      assert GridMap(f, rows)[r * 7 + c] == f(r, c);
    } else {
      GridMapAt(f, rows - 1, r, c);
      GridMapInit(f, rows, r * 7 + c);
      assert GridMap(f, rows)[r * 7 + c] == f(r, c);
    }
  }

  /**
   * make_instances yields two parallel lists of 49 entries in row-major order:
   * entry row * 7 + col of each belongs to the instance at (row, col).
   */
  lemma MakeInstancesGrid()
    ensures |MakeInstances().0| == INSTANCE_COUNT && |MakeInstances().1| == INSTANCE_COUNT
    ensures forall row, col :: 0 <= row < ROWS && 0 <= col < COLS ==>
      MakeInstances().0[row * COLS + col] == Instance(row, col).0
      && MakeInstances().1[row * COLS + col] == Instance(row, col).1
  {
    forall row, col | 0 <= row < ROWS && 0 <= col < COLS
      ensures MakeInstances().0[row * COLS + col] == Instance(row, col).0
      ensures MakeInstances().1[row * COLS + col] == Instance(row, col).1
    {
      GridMapAt(Instance, ROWS, row, col);
    }
  }

  /**
   * The material at (row, col) is (row / 7, roughness, 1, 0): metallic depends
   * on the row only, and roughness is 0.05 in the first column and col / 7 in
   * the others, so it always lies in [0.05, 1].
   */
  lemma InstanceMaterial(row: nat, col: nat)
    requires row < ROWS && col < COLS
    ensures var info := Instance(row, col).1.info;
      && info.x == row as real / 7.0 && info.z == 1.0 && info.w == 0.0
      && (col == 0 ==> info.y == 0.05)
      && (col > 0 ==> info.y == col as real / 7.0)
      && 0.05 <= info.y <= 1.0
  {
  }

  /**
   * The sphere at (row, col) sits at ((col - 3) * 2.5, (row - 3) * 2.5, 0), so
   * the grid is symmetric about the origin: (6 - row, 6 - col) is its mirror.
   */
  lemma InstanceTranslation(row: nat, col: nat)
    requires row < ROWS && col < COLS
    ensures Instance(row, col).0.model.c3 == Vec4((col - 3) as real * 2.5, (row - 3) as real * 2.5, 0.0, 1.0)
    ensures var m := Instance(row, col).0.model.c3;
      var mirror := Instance(6 - row, 6 - col).0.model.c3;
      mirror.x == -m.x && mirror.y == -m.y && mirror.z == m.z == 0.0
  {
  }

  // ---------------------------------------------------------------------------
  // Schemas, bind groups and the pipeline

  datatype Material = Material(albedo: Texture, roughness: Texture, ambientOcclusion: Texture,
                               normals: Texture, metallic: Texture)

  datatype PbrLayout = PbrLayout(textureLayout: BindGroupLayout, uniformLayout: BindGroupLayout,
                                 pipelineLayout: seq<BindGroupLayout>)

  /**
   * PbrLayout::texture_layout: eight fragment-stage slots, a 2D texture at each
   * even slot and its sampler at the odd slot after it.
   */
  function TextureLayout(): (l: BindGroupLayout)
    ensures |l.entries| == 8 && SlotsInOrder(l)
    ensures forall i :: 0 <= i < 8 ==>
      l.entries[i].visibility == {FragmentStage} && l.entries[i].ty == (if i % 2 == 0 then TEXTURE_2D else SAMPLER)
  {
    BindGroupLayout([
      BindGroupLayoutEntry(0, {FragmentStage}, TEXTURE_2D), BindGroupLayoutEntry(1, {FragmentStage}, SAMPLER),
      BindGroupLayoutEntry(2, {FragmentStage}, TEXTURE_2D), BindGroupLayoutEntry(3, {FragmentStage}, SAMPLER),
      BindGroupLayoutEntry(4, {FragmentStage}, TEXTURE_2D), BindGroupLayoutEntry(5, {FragmentStage}, SAMPLER),
      BindGroupLayoutEntry(6, {FragmentStage}, TEXTURE_2D), BindGroupLayoutEntry(7, {FragmentStage}, SAMPLER)],
      "texture_bind_group_layout")
  }

  /**
   * PbrLayout::uniform_layout: the MVP uniform (vertex and fragment), the PBR
   * parameters uniform (fragment), and two read-only storage buffers, the
   * transforms (vertex) and the material infos (fragment).
   */
  function UniformLayout(): (l: BindGroupLayout)
    ensures |l.entries| == 4 && SlotsInOrder(l)
    ensures l.entries[0].ty == UNIFORM && l.entries[0].visibility == {VertexStage, FragmentStage}
    ensures l.entries[1].ty == UNIFORM && l.entries[1].visibility == {FragmentStage}
    ensures l.entries[2].ty == StorageBuffer(false, true) && l.entries[2].visibility == {VertexStage}
    ensures l.entries[3].ty == StorageBuffer(false, true) && l.entries[3].visibility == {FragmentStage}
  {
    BindGroupLayout([
      BindGroupLayoutEntry(0, {VertexStage, FragmentStage}, UNIFORM),
      BindGroupLayoutEntry(1, {FragmentStage}, UNIFORM),
      BindGroupLayoutEntry(2, {VertexStage}, StorageBuffer(false, true)),
      BindGroupLayoutEntry(3, {FragmentStage}, StorageBuffer(false, true))],
      "uniform_bind_group_layout")
  }

  /** PbrLayout::new: group 0 is the uniform schema, group 1 the texture schema. */
  function NewPbrLayout(): (l: PbrLayout)
    ensures l.uniformLayout == UniformLayout() && l.textureLayout == TextureLayout()
    ensures l.pipelineLayout == [l.uniformLayout, l.textureLayout]
  {
    PbrLayout(TextureLayout(), UniformLayout(), [UniformLayout(), TextureLayout()])
  }

  /** PbrLayout::create_uniform_bind_group: bytes 0..size of each of the four buffers, at slots 0..3. */
  function CreateUniformBindGroup(layout: PbrLayout,
                                  mvpBuffer: array<Byte>, mvpSize: nat,
                                  pbrFsBuffer: array<Byte>, pbrFsSize: nat,
                                  transformsBuffer: array<Byte>, transformsSize: nat,
                                  materialInfoBuffer: array<Byte>, materialInfoSize: nat): BindGroup
  {
    BindGroup(layout.uniformLayout,
              [Binding(0, BufferRange(mvpBuffer, 0, mvpSize)),
               Binding(1, BufferRange(pbrFsBuffer, 0, pbrFsSize)),
               Binding(2, BufferRange(transformsBuffer, 0, transformsSize)),
               Binding(3, BufferRange(materialInfoBuffer, 0, materialInfoSize))],
              "pbr_uniform_bind_group")
  }

  /** The uniform group matches the uniform schema exactly when each range lies inside its buffer. */
  lemma UniformBindGroupConforms(mvpBuffer: array<Byte>, mvpSize: nat,
                                 pbrFsBuffer: array<Byte>, pbrFsSize: nat,
                                 transformsBuffer: array<Byte>, transformsSize: nat,
                                 materialInfoBuffer: array<Byte>, materialInfoSize: nat)
    ensures Conforms(CreateUniformBindGroup(NewPbrLayout(), mvpBuffer, mvpSize, pbrFsBuffer, pbrFsSize,
                                            transformsBuffer, transformsSize, materialInfoBuffer, materialInfoSize))
      <==> mvpSize <= mvpBuffer.Length && pbrFsSize <= pbrFsBuffer.Length
           && transformsSize <= transformsBuffer.Length && materialInfoSize <= materialInfoBuffer.Length
  {
    var g := CreateUniformBindGroup(NewPbrLayout(), mvpBuffer, mvpSize, pbrFsBuffer, pbrFsSize,
                                    transformsBuffer, transformsSize, materialInfoBuffer, materialInfoSize);
    if Conforms(g) {
      assert Accepts(g.layout.entries[0].ty, g.bindings[0].resource);
      assert Accepts(g.layout.entries[1].ty, g.bindings[1].resource);
      assert Accepts(g.layout.entries[2].ty, g.bindings[2].resource);
      assert Accepts(g.layout.entries[3].ty, g.bindings[3].resource);
    }
  }

  /**
   * PbrLayout::create_texture_bind_group: albedo, roughness, ambient occlusion
   * and normals, each as view then sampler. The metallic texture is not bound.
   */
  function CreateTextureBindGroup(layout: PbrLayout, material: Material): BindGroup
  {
    BindGroup(layout.textureLayout,
              [Binding(0, TextureView(material.albedo)), Binding(1, SamplerOf(material.albedo)),
               Binding(2, TextureView(material.roughness)), Binding(3, SamplerOf(material.roughness)),
               Binding(4, TextureView(material.ambientOcclusion)), Binding(5, SamplerOf(material.ambientOcclusion)),
               Binding(6, TextureView(material.normals)), Binding(7, SamplerOf(material.normals))],
              "bind_group")
  }

  /** The texture a view or sampler binding refers to. */
  function BoundTexture(b: Binding): Option<Texture>
  {
    match b.resource
    case TextureView(t) => Some(t)
    case SamplerOf(t) => Some(t)
    case BufferRange(_, _, _) => None
  }

  /**
   * The texture group matches the texture schema; slots 2k and 2k + 1 hold the
   * view and sampler of one texture, the textures being albedo, roughness,
   * ambient occlusion and normals in that order; and a metallic texture distinct
   * from those four is bound nowhere.
   */
  lemma TextureBindGroupConforms(material: Material)
    ensures var g := CreateTextureBindGroup(NewPbrLayout(), material);
      && Conforms(g)
      && (forall k :: 0 <= k < 4 ==> BoundTexture(g.bindings[2 * k]) == BoundTexture(g.bindings[2 * k + 1]))
      && [BoundTexture(g.bindings[0]), BoundTexture(g.bindings[2]), BoundTexture(g.bindings[4]), BoundTexture(g.bindings[6])]
         == [Some(material.albedo), Some(material.roughness), Some(material.ambientOcclusion), Some(material.normals)]
  {
  }

  lemma MetallicNeverBound(material: Material)
    requires material.metallic !in {material.albedo, material.roughness, material.ambientOcclusion, material.normals}
    ensures var g := CreateTextureBindGroup(NewPbrLayout(), material);
      forall i :: 0 <= i < |g.bindings| ==> BoundTexture(g.bindings[i]) != Some(material.metallic)
  {
  }

  /**
   * PbrLayout::create_render_pipeline: clockwise front faces, back culling, a
   * triangle strip (the sphere is drawn as one), a depth buffer written and
   * tested with Less, and VertexTexNormal vertices.
   */
  function CreateRenderPipeline(layout: PbrLayout, vs: ShaderModule, fs: ShaderModule): RenderPipelineDesc
  {
    RenderPipelineDesc(layout.pipelineLayout, ProgrammableStage(vs, "main"), ProgrammableStage(fs, "main"),
                       Cw, CullBack, TriangleStrip, Some(DepthStencilState(DepthFormat, true, Less)),
                       Uint16, [VertexTexNormalDesc()])
  }

  datatype Pbr = Pbr(pipeline: RenderPipelineDesc, layout: PbrLayout)

  /** Pbr::new: the pbr shaders compiled under the tag "pbr". */
  function NewPbr(vsSrc: string, fsSrc: string): (p: Pbr)
    ensures p.layout == NewPbrLayout() && p.pipeline.bindGroupLayouts == p.layout.pipelineLayout
    ensures p.pipeline.topology == TriangleStrip && p.pipeline.frontFace == Cw
    ensures p.pipeline.depthStencil == Some(DepthStencilState(DepthFormat, true, Less))
    ensures p.pipeline.vertexBuffers == [VertexTexNormalDesc()]
  {
    var (vs, fs) := CompileModules(vsSrc, fsSrc, "pbr");
    var layout := NewPbrLayout();
    Pbr(CreateRenderPipeline(layout, vs, fs), layout)
  }

  /**
   * The PBR pipeline runs the vertex source as "pbr_vs.glsl" and the fragment
   * source as "pbr_fs.glsl", both from entry point "main".
   */
  lemma PbrShaderModules(vsSrc: string, fsSrc: string)
    ensures var p := NewPbr(vsSrc, fsSrc);
      && p.pipeline.vertexStage.shader == ShaderModule(vsSrc, VertexShader, "pbr_vs.glsl", "main")
      && p.pipeline.fragmentStage.shader == ShaderModule(fsSrc, FragmentShader, "pbr_fs.glsl", "main")
      && p.pipeline.vertexStage.entryPoint == "main" == p.pipeline.fragmentStage.entryPoint
  {
  }

  // ---------------------------------------------------------------------------
  // The state

  /** f32 bit patterns of the constants of the initial PbrFragmentUniforms. */
  const F32_HALF: F32 := 0x3F00_0000       // 0.5
  const F32_TEN: F32 := 0x4120_0000        // 10.0
  const F32_MINUS_TEN: F32 := 0xC120_0000  // -10.0
  const F32_300: F32 := 0x4396_0000        // 300.0

  /** The fragment parameters PbrState::new sets: a red albedo, four lights at (+-10, +-10, 10) of intensity 300. */
  const INITIAL_PBR_FS: PbrFragmentUniforms := PbrFragmentUniforms(
    Vec4(F32_HALF, F32_ZERO, F32_ZERO, F32_ZERO),
    [Vec4(F32_MINUS_TEN, F32_TEN, F32_TEN, F32_ZERO), Vec4(F32_TEN, F32_TEN, F32_TEN, F32_ZERO),
     Vec4(F32_MINUS_TEN, F32_MINUS_TEN, F32_TEN, F32_ZERO), Vec4(F32_TEN, F32_MINUS_TEN, F32_TEN, F32_ZERO)],
    [Vec4(F32_300, F32_300, F32_300, F32_ZERO), Vec4(F32_300, F32_300, F32_300, F32_ZERO),
     Vec4(F32_300, F32_300, F32_300, F32_ZERO), Vec4(F32_300, F32_300, F32_300, F32_ZERO)])

  /**
   * stage_uniforms: copies the record's 144 bytes from a fresh staging buffer
   * to offset 0 of the MVP buffer. Afterwards the buffer's first 144 bytes read
   * back as the record, and the rest is unchanged.
   */
  method StageUniforms(mvp: MvpUniforms, mvpBuffer: array<Byte>)
    requires MVP_SIZE <= mvpBuffer.Length
    modifies mvpBuffer
    ensures mvpBuffer[..MVP_SIZE] == MvpBytes(mvp)
    ensures mvpBuffer[MVP_SIZE..] == old(mvpBuffer[MVP_SIZE..])
    ensures MvpFromBytes(mvpBuffer[..MVP_SIZE]) == mvp
  {
    var staging := CreateBufferWithData(MvpBytes(mvp));
    CopyBufferToBuffer(staging, 0, mvpBuffer, 0, MVP_SIZE);
    MvpRoundTrip(mvp);
  }

  /** PbrRenderPass: what the pass reads from the state. */
  datatype PbrRenderPass = PbrRenderPass(
    clearColor: Color, mvp: MvpUniforms, mvpBuffer: array<Byte>, uniformBindGroup: BindGroup,
    geometry: Geometry<VertexTexNormal>, depthTexture: Texture, numInstances: nat, textureBindGroup: BindGroup)

  /**
   * The commands PbrRenderPass::render records after staging: clear colour and
   * depth (1.0) and stencil (0), groups 0 and 1, the sphere, and one draw of
   * all its indices for every instance (the count cast to u32).
   */
  function PassRecord(pass: PbrRenderPass, pipeline: RenderPipelineDesc): (r: RenderPassRecord<VertexTexNormal>)
    ensures r.depthStencil == Some(DepthStencilClear(pass.depthTexture, 1.0, 0))
    ensures r.draw.Some? && r.draw.value.indexEnd == pass.geometry.numIndices
  {
    RenderPassRecord(pass.clearColor, Some(DepthStencilClear(pass.depthTexture, 1.0, 0)), pipeline,
                     [(0, pass.uniformBindGroup), (1, pass.textureBindGroup)],
                     Some(pass.geometry),
                     Some(DrawIndexed(0, pass.geometry.numIndices, 0, 0, pass.numInstances % U32_MODULUS)))
  }

  /** PbrRenderPass::render: stage the MVP record, then record the pass. */
  method Render(pass: PbrRenderPass, pipeline: RenderPipelineDesc) returns (r: RenderPassRecord<VertexTexNormal>)
    requires MVP_SIZE <= pass.mvpBuffer.Length
    modifies pass.mvpBuffer
    ensures pass.mvpBuffer[..MVP_SIZE] == MvpBytes(pass.mvp)
    ensures pass.mvpBuffer[MVP_SIZE..] == old(pass.mvpBuffer[MVP_SIZE..])
    ensures r == PassRecord(pass, pipeline)
  {
    StageUniforms(pass.mvp, pass.mvpBuffer);
    r := PassRecord(pass, pipeline);
  }

  /**
   * The uniform group of PbrState::new: the MVP and fragment buffers over their
   * records' sizes, then the transforms and material infos of the instances,
   * each in a fresh storage buffer holding their bytes, over the length of the
   * transform list times the record size.
   */
  ghost predicate StorageBuffersHold(g: BindGroup, instances: (seq<TransformRaw>, seq<MaterialInfoRaw>), toF32: real -> F32)
    reads set i | 0 <= i < |g.bindings| && g.bindings[i].resource.BufferRange? :: g.bindings[i].resource.buffer
  {
    && |g.bindings| == 4
    && (forall i :: 0 <= i < 4 ==> g.bindings[i].resource.BufferRange?)
    && g.bindings[2].resource.buffer[..] == TransformsBytes(instances.0, toF32)
    && g.bindings[3].resource.buffer[..] == MaterialInfosBytes(instances.1, toF32)
    && g == CreateUniformBindGroup(NewPbrLayout(), g.bindings[0].resource.buffer, MVP_SIZE,
                                   g.bindings[1].resource.buffer, PBR_FS_SIZE,
                                   g.bindings[2].resource.buffer, |instances.0| * TRANSFORM_RAW_SIZE,
                                   g.bindings[3].resource.buffer, |instances.0| * MATERIAL_INFO_RAW_SIZE)
  }

  /** The storage buffers and the uniform group of PbrState::new. */
  method CreateUniforms(mvpBuffer: array<Byte>, pbrFsBuffer: array<Byte>,
                        instances: (seq<TransformRaw>, seq<MaterialInfoRaw>), toF32: real -> F32)
    returns (g: BindGroup)
    requires mvpBuffer.Length == MVP_SIZE && pbrFsBuffer.Length == PBR_FS_SIZE
    requires |instances.0| == |instances.1|
    ensures g.layout == NewPbrLayout().uniformLayout && Conforms(g)
    ensures g.bindings[0].resource == BufferRange(mvpBuffer, 0, MVP_SIZE)
    ensures g.bindings[1].resource == BufferRange(pbrFsBuffer, 0, PBR_FS_SIZE)
    ensures fresh(g.bindings[2].resource.buffer) && fresh(g.bindings[3].resource.buffer)
    ensures StorageBuffersHold(g, instances, toF32)
  {
    var transformsBuffer := CreateBufferWithData(TransformsBytes(instances.0, toF32));
    var transformsSize := |instances.0| * TRANSFORM_RAW_SIZE;
    var materialInfoBuffer := CreateBufferWithData(MaterialInfosBytes(instances.1, toF32));
    var materialInfoSize := |instances.0| * MATERIAL_INFO_RAW_SIZE;
    g := CreateUniformBindGroup(NewPbrLayout(), mvpBuffer, MVP_SIZE, pbrFsBuffer, PBR_FS_SIZE,
                                transformsBuffer, transformsSize, materialInfoBuffer, materialInfoSize);
    UniformBindGroupConforms(mvpBuffer, MVP_SIZE, pbrFsBuffer, PBR_FS_SIZE,
                             transformsBuffer, transformsSize, materialInfoBuffer, materialInfoSize);
  }

  class PbrState {
    var mvp: MvpUniforms
    const pbrFs: PbrFragmentUniforms
    var depthTexture: Texture
    const mvpBuffer: array<Byte>
    const pbrFsBuffer: array<Byte>
    const uniformBindGroup: BindGroup
    const sphere: Geometry<VertexTexNormal>
    const instances: (seq<TransformRaw>, seq<MaterialInfoRaw>)
    const material: Material
    const materialBindGroup: BindGroup

    /**
     * The bind groups are made against the PBR schemas and match them, the MVP
     * buffer is bound at slot 0 over its 144 bytes, the instance lists are
     * parallel, and the sphere's indices all name vertices.
     */
    ghost predicate Valid()
    {
      && mvpBuffer.Length == MVP_SIZE
      && uniformBindGroup.layout == NewPbrLayout().uniformLayout && Conforms(uniformBindGroup)
      && uniformBindGroup.bindings[0].resource == BufferRange(mvpBuffer, 0, MVP_SIZE)
      && materialBindGroup == CreateTextureBindGroup(NewPbrLayout(), material) && Conforms(materialBindGroup)
      && |instances.0| == |instances.1| == INSTANCE_COUNT
      && IndicesInRange(sphere) && sphere.numIndices == |sphere.indexBuffer|
    }

    /**
     * PbrState::new, given the loaded material textures, the depth texture, the
     * camera's eye and view-projection matrix as f32, the trigonometry for the
     * sphere and the rounding of reals to f32 for the instance buffers.
     */
    constructor (material: Material, depthTexture: Texture, eye: Vec3<F32>, viewProj: Mat4<F32>,
                 cos: real -> real, sin: real -> real, toF32: real -> F32)
      ensures Valid() && fresh(mvpBuffer) && fresh(pbrFsBuffer)
      ensures this.material == material && this.depthTexture == depthTexture
      ensures mvp == UpdateViewProj(NewMvp(), eye, viewProj) && mvpBuffer[..] == MvpBytes(mvp)
      ensures pbrFs == INITIAL_PBR_FS && pbrFsBuffer[..] == PbrFsBytes(INITIAL_PBR_FS)
      ensures instances == MakeInstances()
      ensures StorageBuffersHold(uniformBindGroup, instances, toF32)
      ensures |sphere.vertexBuffer| == SPHERE_VERTEX_COUNT && |sphere.indexBuffer| == SPHERE_INDEX_COUNT
      ensures SphereGrid(sphere.vertexBuffer, cos, sin)
      ensures SphereStrip(sphere.indexBuffer)
    {
      var sphere := CreateSpherePbr(cos, sin);
      var materialBindGroup := CreateTextureBindGroup(NewPbrLayout(), material);
      TextureBindGroupConforms(material);
      var instances := MakeInstances();
      var mvp := UpdateViewProj(NewMvp(), eye, viewProj);
      var mvpBuffer := CreateBufferWithData(MvpBytes(mvp));
      var pbrFsBuffer := CreateBufferWithData(PbrFsBytes(INITIAL_PBR_FS));
      var uniformBindGroup := CreateUniforms(mvpBuffer, pbrFsBuffer, instances, toF32);
      this.mvp := mvp;
      this.pbrFs := INITIAL_PBR_FS;
      this.mvpBuffer := mvpBuffer;
      this.pbrFsBuffer := pbrFsBuffer;
      this.uniformBindGroup := uniformBindGroup;
      this.sphere := sphere;
      this.depthTexture := depthTexture;
      this.instances := instances;
      this.material := material;
      this.materialBindGroup := materialBindGroup;
    }

    /** resize, given the new depth texture: only the depth texture changes. */
    method Resize(depthTexture: Texture)
      requires Valid()
      modifies this
      ensures Valid()
      ensures this.depthTexture == depthTexture && mvp == old(mvp)
    {
      this.depthTexture := depthTexture;
    }

    /**
     * update_view_proj on the state's MVP record, given the camera's eye and
     * view-projection matrix as f32; the buffer is staged only when rendering.
     */
    method UpdateMvp(eye: Vec3<F32>, viewProj: Mat4<F32>)
      requires Valid()
      modifies this
      ensures Valid()
      ensures mvp == UpdateViewProj(old(mvp), eye, viewProj) && depthTexture == old(depthTexture)
    {
      mvp := UpdateViewProj(mvp, eye, viewProj);
    }

    /** PbrRenderPass::new: a dark grey clear, and one instance per transform. */
    function NewRenderPass(): (pass: PbrRenderPass)
      reads this
      ensures pass.numInstances == |instances.0| && pass.geometry == sphere
    {
      PbrRenderPass(Color(0.1, 0.1, 0.1, 1.0), mvp, mvpBuffer, uniformBindGroup, sphere, depthTexture,
                    |instances.0|, materialBindGroup)
    }

    /**
     * With the PBR pipeline the pass sets both groups with matching bind groups,
     * clears depth to 1.0 and stencil to 0, and draws all 8320 sphere indices
     * for each of the 49 instances; the draw is well-formed.
     */
    lemma RenderPassIsWellFormed(vsSrc: string, fsSrc: string)
      requires Valid() && |sphere.indexBuffer| == SPHERE_INDEX_COUNT
      ensures var r := PassRecord(NewRenderPass(), NewPbr(vsSrc, fsSrc).pipeline);
        && r.clearColor == Color(0.1, 0.1, 0.1, 1.0)
        && r.depthStencil == Some(DepthStencilClear(depthTexture, 1.0, 0))
        && r.draw == Some(DrawIndexed(0, SPHERE_INDEX_COUNT, 0, 0, INSTANCE_COUNT))
        && BindsMatchPipeline(r) && DrawIsWellFormed(r)
    {
      var r := PassRecord(NewRenderPass(), NewPbr(vsSrc, fsSrc).pipeline);
      assert r.bindGroups[0].0 == 0 && r.bindGroups[1].0 == 1;
      assert 0 in BoundGroups(r) && 1 in BoundGroups(r);
    }
  }
}
