// The textured 2D pipeline and its state: a list of geometries, a list of
// textures, the selected entry of each, and the MVP uniform buffer
// (src/pipelines/simple.rs).
module SimplePipeline {
  import opened Wrappers
  import opened RenderTypes
  import opened Geometry
  import opened Wgpu
  import opened Pipelines

  /** SimpleLayout: the texture and uniform schemas, and the pipeline layout listing them, uniform first. */
  datatype SimpleLayout = SimpleLayout(textureLayout: BindGroupLayout, uniformLayout: BindGroupLayout,
                                       pipelineLayout: seq<BindGroupLayout>)

  /** SimpleLayout::new: group 0 is the uniform schema, group 1 the texture schema. */
  function NewSimpleLayout(): (l: SimpleLayout)
    ensures l.uniformLayout == SingleUniformBufferLayout() && l.textureLayout == SingleTextureLayout()
    ensures l.pipelineLayout == [l.uniformLayout, l.textureLayout]
  {
    SimpleLayout(SingleTextureLayout(), SingleUniformBufferLayout(),
                 [SingleUniformBufferLayout(), SingleTextureLayout()])
  }

  /** SimpleLayout::create_render_pipeline. */
  function CreateRenderPipeline(layout: SimpleLayout, vs: ShaderModule, fs: ShaderModule): RenderPipelineDesc
  {
    RenderPipelineDesc(layout.pipelineLayout, ProgrammableStage(vs, "main"), ProgrammableStage(fs, "main"),
                       Ccw, CullBack, TriangleList, None, Uint16, [VertexTexDesc()])
  }

  datatype Simple = Simple(pipeline: RenderPipelineDesc, layout: SimpleLayout)

  /**
   * Simple::new: the tex2D shaders compiled under the tag "simple", and a
   * counter-clockwise, back-culled triangle-list pipeline over VertexTex with no
   * depth buffer.
   */
  function NewSimple(vsSrc: string, fsSrc: string): (s: Simple)
    ensures s.layout == NewSimpleLayout() && s.pipeline.bindGroupLayouts == s.layout.pipelineLayout
    ensures s.pipeline.topology == TriangleList && s.pipeline.frontFace == Ccw && s.pipeline.depthStencil == None
    ensures s.pipeline.vertexBuffers == [VertexTexDesc()] && s.pipeline.vertexBuffers[0].stride == VERTEX_TEX_SIZE
  {
    var (vs, fs) := CompileModules(vsSrc, fsSrc, "simple");
    var layout := NewSimpleLayout();
    Simple(CreateRenderPipeline(layout, vs, fs), layout)
  }
  /**
   * The Simple pipeline runs the vertex source as "simple_vs.glsl" and the
   * fragment source as "simple_fs.glsl", both from entry point "main".
   */
  lemma SimpleShaderModules(vsSrc: string, fsSrc: string)
    ensures var s := NewSimple(vsSrc, fsSrc);
      && s.pipeline.vertexStage.shader == ShaderModule(vsSrc, VertexShader, "simple_vs.glsl", "main")
      && s.pipeline.fragmentStage.shader == ShaderModule(fsSrc, FragmentShader, "simple_fs.glsl", "main")
      && s.pipeline.vertexStage.entryPoint == "main" == s.pipeline.fragmentStage.entryPoint
  {
  }

  // ---------------------------------------------------------------------------
  // Index cycling

  /** One inc_*_index step on a list of length n: add one, then reduce modulo n. */
  function Step(i: nat, n: nat): (r: nat)
    requires n > 0
    ensures r < n
  {
    (i + 1) % n
  }

  /** k successive steps. */
  function Steps(i: nat, n: nat, k: nat): (r: nat)
    requires n > 0
    ensures r < n || (k == 0 && r == i)
  {
    if k == 0 then i else Step(Steps(i, n, k - 1), n)
  }

  /** From a valid index, a step adds one, wrapping from the last index to 0. */
  lemma StepWraps(i: nat, n: nat)
    requires i < n
    ensures Step(i, n) == if i + 1 == n then 0 else i + 1
  {
  }

  /** Below the end of the list, k steps add k. */
  lemma {:induction false} StepsCountUp(i: nat, n: nat, k: nat)
    requires i + k < n
    ensures Steps(i, n, k) == i + k
  {
    if k > 0 {
      StepsCountUp(i, n, k - 1);
      StepWraps(i + k - 1, n);
    }
  }

  /** a + b steps are a steps followed by b steps. */
  lemma {:induction false} StepsCompose(i: nat, n: nat, a: nat, b: nat)
    requires n > 0
    ensures Steps(i, n, a + b) == Steps(Steps(i, n, a), n, b)
  {
    if b > 0 {
      StepsCompose(i, n, a, b - 1);
    }
  }

  /** n steps on a list of length n come back to the start. */
  lemma CycleReturns(i: nat, n: nat)
    requires i < n
    ensures Steps(i, n, n) == i
  {
    StepsCountUp(i, n, n - 1 - i);
    StepWraps(n - 1, n);
    StepsCompose(i, n, n - 1 - i, 1);
    StepsCompose(i, n, n - i, i);
    StepsCountUp(0, n, i);
  }

  /** The cycle visits every index: index j is reached from i after j - i steps, or n - i + j when j < i. */
  lemma CycleVisitsAll(i: nat, n: nat, j: nat)
    requires i < n && j < n
    ensures j >= i ==> Steps(i, n, j - i) == j
    ensures j < i ==> Steps(i, n, n - i + j) == j
  {
    if j >= i {
      StepsCountUp(i, n, j - i);
    } else {
      StepsCountUp(i, n, n - 1 - i);
      StepWraps(n - 1, n);
      StepsCompose(i, n, n - 1 - i, 1);
      StepsCompose(i, n, n - i, j);
      StepsCountUp(0, n, j);
    }
  }

  /** On a one-element list a step is a no-op. */
  lemma StepOnSingletonIsNoOp(i: nat)
    requires i < 1
    ensures Step(i, 1) == i
  {
  }

  // ---------------------------------------------------------------------------
  // The state

  class SimpleState {
    var uniforms: MvpUniforms
    const uniformBuffer: array<Byte>
    const uniformBindGroup: BindGroup
    var geometries: seq<Geometry<VertexTex>>
    var textures: seq<(Texture, BindGroup)>
    var geometryIndex: nat
    var textureIndex: nat

    /**
     * The uniform buffer holds the bytes of `uniforms` and is bound whole at
     * slot 0; each texture comes with its bind group; each geometry records
     * its buffers' lengths; each index selects an
     * entry, or is 0 while its list is empty.
     */
    ghost predicate Valid()
      reads this, uniformBuffer
    {
      && uniformBuffer.Length == MVP_SIZE
      && uniformBuffer[..] == MvpBytes(uniforms)
      && uniformBindGroup == SingleUniformBindGroup(SingleUniformBufferLayout(), uniformBuffer, MVP_SIZE)
      && (forall i :: 0 <= i < |textures| ==> textures[i].1 == SingleTextureBindGroup(SingleTextureLayout(), textures[i].0))
      && (forall i :: 0 <= i < |geometries| ==> geometries[i] == New(geometries[i].vertexBuffer, geometries[i].indexBuffer))
      && (geometryIndex < |geometries| || geometryIndex == 0 == |geometries|)
      && (textureIndex < |textures| || textureIndex == 0 == |textures|)
    }

    /**
     * SimpleState::new, given the camera's eye and view-projection matrix as
     * f32: empty lists, both indices 0, and a fresh uniform buffer holding the
     * initial uniforms, bound at slot 0 over its whole size.
     */
    constructor (eye: Vec3<F32>, viewProj: Mat4<F32>)
      ensures Valid() && fresh(uniformBuffer)
      ensures uniforms == UpdateViewProj(NewMvp(), eye, viewProj)
      ensures geometries == [] && textures == [] && geometryIndex == 0 && textureIndex == 0
    {
      var u := UpdateViewProj(NewMvp(), eye, viewProj);
      var buffer := CreateBufferWithData(MvpBytes(u));
      uniforms := u;
      uniformBuffer := buffer;
      uniformBindGroup := SingleUniformBindGroup(NewSimpleLayout().uniformLayout, buffer, MVP_SIZE);
      geometries := [];
      textures := [];
      geometryIndex := 0;
      textureIndex := 0;
    }

    /** The uniform buffer reads back as the current uniforms. */
    lemma UniformBufferReadsBack()
      requires Valid()
      ensures MvpFromBytes(uniformBuffer[..]) == uniforms
    {
      MvpRoundTrip(uniforms);
    }

    /** add_texture, given the loaded texture: appends it with its bind group and returns its index. */
    method AddTexture(texture: Texture) returns (index: nat)
      requires Valid()
      modifies this
      ensures Valid()
      ensures textures == old(textures) + [(texture, SingleTextureBindGroup(SingleTextureLayout(), texture))]
      ensures index == old(|textures|) && textures[index].0 == texture
      ensures Conforms(textures[index].1)
      ensures geometries == old(geometries) && uniforms == old(uniforms)
      ensures geometryIndex == old(geometryIndex) && textureIndex == old(textureIndex)
    {
      var bindGroup := SingleTextureBindGroup(NewSimpleLayout().textureLayout, texture);
      SingleTextureBindGroupConforms(texture);
      index := |textures|;
      textures := textures + [(texture, bindGroup)];
    }

    /** add_geometry: appends Geometry::new of the slices and returns its index. */
    method AddGeometry(vertices: seq<VertexTex>, indices: seq<int>) returns (index: nat)
      requires Valid()
      modifies this
      ensures Valid()
      ensures index == old(|geometries|)
      ensures geometries == old(geometries) + [New(vertices, indices)]
      ensures textures == old(textures) && uniforms == old(uniforms)
      ensures geometryIndex == old(geometryIndex) && textureIndex == old(textureIndex)
    {
      index := |geometries|;
      geometries := geometries + [New(vertices, indices)];
    }

    /** inc_geometry_index; an empty list would divide by zero. */
    method IncGeometryIndex()
      requires Valid() && |geometries| > 0
      modifies this
      ensures Valid()
      ensures geometries == old(geometries) && textures == old(textures) && uniforms == old(uniforms)
      ensures geometryIndex == Step(old(geometryIndex), |geometries|) < |geometries|
      ensures textureIndex == old(textureIndex)
    {
      geometryIndex := geometryIndex + 1;
      geometryIndex := geometryIndex % |geometries|;
    }

    /** inc_texture_index; an empty list would divide by zero. */
    method IncTextureIndex()
      requires Valid() && |textures| > 0
      modifies this
      ensures Valid()
      ensures geometries == old(geometries) && textures == old(textures) && uniforms == old(uniforms)
      ensures textureIndex == Step(old(textureIndex), |textures|) < |textures|
      ensures geometryIndex == old(geometryIndex)
    {
      textureIndex := textureIndex + 1;
      textureIndex := textureIndex % |textures|;
    }

    /**
     * update_uniforms, given the camera's eye and view-projection matrix and
     * cos/sin of the model angle as f32: updates the record, then copies its
     * 144 bytes from a fresh staging buffer over the uniform buffer, which then
     * holds exactly the new record's bytes.
     */
    method UpdateUniforms(eye: Vec3<F32>, viewProj: Mat4<F32>, cosA: F32, sinA: F32)
      requires Valid()
      modifies this, uniformBuffer
      ensures Valid()
      ensures uniforms == UpdateModelRotation(UpdateViewProj(old(uniforms), eye, viewProj), cosA, sinA)
      ensures uniformBuffer[..] == MvpBytes(uniforms)
      ensures geometries == old(geometries) && textures == old(textures)
      ensures geometryIndex == old(geometryIndex) && textureIndex == old(textureIndex)
    {
      uniforms := UpdateViewProj(uniforms, eye, viewProj);
      uniforms := UpdateModelRotation(uniforms, cosA, sinA);
      var staging := CreateBufferWithData(MvpBytes(uniforms));
      CopyBufferToBuffer(staging, 0, uniformBuffer, 0, MVP_SIZE);
    }

    /**
     * SimpleRenderPass::render: the pass for the selected texture and geometry.
     * Indexing an empty list panics, so both must be non-empty.
     */
    function RenderPass(clearColor: Color, pipeline: RenderPipelineDesc): (pass: RenderPassRecord<VertexTex>)
      reads this
      requires textureIndex < |textures| && geometryIndex < |geometries|
      ensures pass.geometry == Some(geometries[geometryIndex])
      ensures pass.bindGroups == [(0, uniformBindGroup), (1, textures[textureIndex].1)]
    {
      var geometry := geometries[geometryIndex];
      RenderPassRecord(clearColor, None, pipeline,
                       [(0, uniformBindGroup), (1, textures[textureIndex].1)],
                       Some(geometry), Some(DrawIndexed(0, geometry.numIndices, 0, 0, 1)))
    }

    /**
     * With the Simple pipeline, the pass sets both of its groups with matching
     * bind groups, clears colour only, and draws the selected geometry's whole
     * index buffer once; the draw is well-formed when that geometry's indices
     * are in range.
     */
    lemma RenderPassIsWellFormed(clearColor: Color, vsSrc: string, fsSrc: string)
      requires Valid() && textureIndex < |textures| && geometryIndex < |geometries|
      requires IndicesInRange(geometries[geometryIndex]) && |geometries[geometryIndex].indexBuffer| < U32_MODULUS
      ensures var pass := RenderPass(clearColor, NewSimple(vsSrc, fsSrc).pipeline);
        && pass.depthStencil.None?
        && BindsMatchPipeline(pass) && DrawIsWellFormed(pass)
        && pass.draw == Some(DrawIndexed(0, |geometries[geometryIndex].indexBuffer|, 0, 0, 1))
    {
      var pass := RenderPass(clearColor, NewSimple(vsSrc, fsSrc).pipeline);
      SingleUniformBindGroupConforms(uniformBuffer, MVP_SIZE);
      SingleTextureBindGroupConforms(textures[textureIndex].0);
      assert pass.bindGroups[0].0 == 0 && pass.bindGroups[1].0 == 1;
      assert 0 in BoundGroups(pass) && 1 in BoundGroups(pass);
    }
  }
}
