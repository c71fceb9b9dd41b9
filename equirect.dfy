// The equirectangular environment pipeline and its state: an MVP uniform
// buffer bound at group 0, and a render pass that binds it and draws nothing
// (src/pipelines/equirect.rs).
module EquirectPipeline {
  import opened Wrappers
  import opened RenderTypes
  import opened Wgpu
  import opened Pipelines
  import SimplePipeline
  import PbrPipeline

  /** EquirectLayout: the texture and uniform schemas, and the pipeline layout listing them, uniform first. */
  datatype EquirectLayout = EquirectLayout(textureLayout: BindGroupLayout, uniformLayout: BindGroupLayout,
                                           pipelineLayout: seq<BindGroupLayout>)

  /** EquirectLayout::new: group 0 is the uniform schema, group 1 the texture schema. */
  function NewEquirectLayout(): (l: EquirectLayout)
    ensures l.uniformLayout == SingleUniformBufferLayout() && l.textureLayout == SingleTextureLayout()
    ensures l.pipelineLayout == [l.uniformLayout, l.textureLayout]
  {
    EquirectLayout(SingleTextureLayout(), SingleUniformBufferLayout(),
                   [SingleUniformBufferLayout(), SingleTextureLayout()])
  }

  /** EquirectLayout::create_render_pipeline. */
  function CreateRenderPipeline(layout: EquirectLayout, vs: ShaderModule, fs: ShaderModule): RenderPipelineDesc
  {
    RenderPipelineDesc(layout.pipelineLayout, ProgrammableStage(vs, "main"), ProgrammableStage(fs, "main"),
                       Ccw, CullBack, TriangleList, None, Uint16, [VertexPlainDesc()])
  }

  datatype Equirect = Equirect(pipeline: RenderPipelineDesc, layout: EquirectLayout)

  /**
   * Equirect::new: the equirect shaders compiled under the tag "pbr", and a
   * counter-clockwise, back-culled triangle-list pipeline over VertexPlain with
   * no depth buffer.
   */
  function NewEquirect(vsSrc: string, fsSrc: string): (e: Equirect)
    ensures e.layout == NewEquirectLayout() && e.pipeline.bindGroupLayouts == e.layout.pipelineLayout
    ensures e.pipeline.vertexStage.shader.source == vsSrc && e.pipeline.fragmentStage.shader.source == fsSrc
    ensures e.pipeline.topology == TriangleList && e.pipeline.frontFace == Ccw && e.pipeline.depthStencil == None
    ensures e.pipeline.vertexBuffers == [VertexPlainDesc()]
  {
    var (vs, fs) := CompileModules(vsSrc, fsSrc, "pbr");
    var layout := NewEquirectLayout();
    Equirect(CreateRenderPipeline(layout, vs, fs), layout)
  }

  /**
   * The equirect modules are compiled under the PBR pipeline's tag, so they
   * carry the very names of the PBR modules and none of the Simple ones.
   */
  lemma EquirectModulesNamedAsPbr(vsSrc: string, fsSrc: string, pbrVs: string, pbrFs: string, simpleVs: string, simpleFs: string)
    ensures NewEquirect(vsSrc, fsSrc).pipeline.vertexStage.shader.name
         == PbrPipeline.NewPbr(pbrVs, pbrFs).pipeline.vertexStage.shader.name == "pbr_vs.glsl"
    ensures NewEquirect(vsSrc, fsSrc).pipeline.fragmentStage.shader.name
         == PbrPipeline.NewPbr(pbrVs, pbrFs).pipeline.fragmentStage.shader.name == "pbr_fs.glsl"
    ensures NewEquirect(vsSrc, fsSrc).pipeline.vertexStage.shader.name
         != SimplePipeline.NewSimple(simpleVs, simpleFs).pipeline.vertexStage.shader.name
  {
    PbrPipeline.PbrShaderModules(pbrVs, pbrFs);
    CompiledNamesIdentifyTag("pbr", "simple", vsSrc, fsSrc, simpleVs, simpleFs);
  }

  /**
   * The commands the equirect pass records: a colour clear, the pipeline and
   * group 0; no depth attachment, no group 1, no buffers and no draw.
   */
  function PassRecord(clearColor: Color, uniformBindGroup: BindGroup, pipeline: RenderPipelineDesc): (r: RenderPassRecord<VertexPlain>)
    ensures r.bindGroups == [(0, uniformBindGroup)]
    ensures r.depthStencil.None? && r.geometry.None? && r.draw.None?
  {
    RenderPassRecord(clearColor, None, pipeline, [(0, uniformBindGroup)], None, None)
  }

  class EquirectState {
    var uniforms: MvpUniforms
    const uniformBuffer: array<Byte>
    const uniformBindGroup: BindGroup

    /** The uniform buffer holds the bytes of `uniforms` and is bound whole at slot 0. */
    ghost predicate Valid()
      reads this, uniformBuffer
    {
      && uniformBuffer.Length == MVP_SIZE
      && uniformBuffer[..] == MvpBytes(uniforms)
      && uniformBindGroup == SingleUniformBindGroup(SingleUniformBufferLayout(), uniformBuffer, MVP_SIZE)
    }

    /**
     * EquirectState::new, given the camera's eye and view-projection matrix as
     * f32: the fresh record with the camera applied, so the model matrix stays
     * the identity; a fresh buffer holding its bytes, bound at slot 0 over its
     * 144 bytes.
     */
    constructor (eye: Vec3<F32>, viewProj: Mat4<F32>)
      ensures Valid() && fresh(uniformBuffer)
      ensures uniforms == UpdateViewProj(NewMvp(), eye, viewProj)
      ensures uniforms.model == Identity(F32_ZERO, F32_ONE)
      ensures uniformBindGroup.bindings == [Binding(0, BufferRange(uniformBuffer, 0, MVP_SIZE))]
    {
      var u := UpdateViewProj(NewMvp(), eye, viewProj);
      var buffer := CreateBufferWithData(MvpBytes(u));
      uniforms := u;
      uniformBuffer := buffer;
      uniformBindGroup := SingleUniformBindGroup(NewEquirectLayout().uniformLayout, buffer, MVP_SIZE);
    }

    /** The uniform group matches the uniform schema, and the buffer reads back as the current record. */
    lemma UniformsConformAndReadBack()
      requires Valid()
      ensures Conforms(uniformBindGroup)
      ensures MvpFromBytes(uniformBuffer[..]) == uniforms
    {
      SingleUniformBindGroupConforms(uniformBuffer, MVP_SIZE);
      MvpRoundTrip(uniforms);
    }

    /**
     * update_uniforms, given the camera's eye and view-projection matrix and
     * cos/sin of the model angle as f32: updates the record, then copies its
     * 144 bytes from a fresh staging buffer over the uniform buffer at offset 0.
     */
    method UpdateUniforms(eye: Vec3<F32>, viewProj: Mat4<F32>, cosA: F32, sinA: F32)
      requires Valid()
      modifies this, uniformBuffer
      ensures Valid()
      ensures uniforms == UpdateModelRotation(UpdateViewProj(old(uniforms), eye, viewProj), cosA, sinA)
      ensures uniformBuffer[..] == MvpBytes(uniforms)
    {
      uniforms := UpdateViewProj(uniforms, eye, viewProj);
      uniforms := UpdateModelRotation(uniforms, cosA, sinA);
      var staging := CreateBufferWithData(MvpBytes(uniforms));
      CopyBufferToBuffer(staging, 0, uniformBuffer, 0, MVP_SIZE);
    }

    /** SimpleRenderPass::render of this module: the pass over the state's uniform group. */
    function RenderPass(clearColor: Color, pipeline: RenderPipelineDesc): (r: RenderPassRecord<VertexPlain>)
      reads this
      ensures r.bindGroups == [(0, uniformBindGroup)] && r.draw.None?
    {
      PassRecord(clearColor, uniformBindGroup, pipeline)
    }

    /**
     * With the equirect pipeline the pass sets group 0 with a matching bind
     * group and leaves group 1 of the pipeline's layout unset; it draws
     * nothing, so no draw can be ill-formed.
     */
    lemma RenderPassBindsOnlyGroupZero(clearColor: Color, vsSrc: string, fsSrc: string)
      requires Valid()
      ensures var pass := RenderPass(clearColor, NewEquirect(vsSrc, fsSrc).pipeline);
        && |pass.pipeline.bindGroupLayouts| == 2
        && BoundGroups(pass) == {0}
        && 1 !in BoundGroups(pass)
        && BindsMatchPipeline(pass) && DrawIsWellFormed(pass)
        && pass.geometry.None? && pass.draw.None? && pass.depthStencil.None?
    {
      var pass := RenderPass(clearColor, NewEquirect(vsSrc, fsSrc).pipeline);
      SingleUniformBindGroupConforms(uniformBuffer, MVP_SIZE);
      assert pass.bindGroups[0].0 == 0;
      assert BoundGroups(pass) == {0};
    }
  }
}
