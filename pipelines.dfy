// The binding schemas and bind groups shared by the pipelines, and the naming
// of compiled shader modules (src/pipelines/mod.rs).
module Pipelines {
  import opened RenderTypes
  import opened Wgpu

  /** The slot kinds the demo uses. */
  const UNIFORM: BindingType := UniformBuffer(false)
  const TEXTURE_2D: BindingType := SampledTexture(false, D2, ComponentUint)
  const SAMPLER: BindingType := Sampler(false)

  /** The entries' slots are 0, 1, 2, ... in the order they are listed. */
  predicate SlotsInOrder(l: BindGroupLayout)
  {
    forall i :: 0 <= i < |l.entries| ==> l.entries[i].binding == i
  }

  /** single_uniform_buffer_layout: one non-dynamic uniform buffer at slot 0, seen by the vertex stage only. */
  function SingleUniformBufferLayout(): (l: BindGroupLayout)
    ensures |l.entries| == 1 && SlotsInOrder(l)
    ensures l.entries[0].ty == UNIFORM && l.entries[0].visibility == {VertexStage}
  {
    BindGroupLayout([BindGroupLayoutEntry(0, {VertexStage}, UNIFORM)], "uniform_bind_group_layout")
  }

  /** single_texture_layout: a 2D sampled texture at slot 0 and its sampler at slot 1, both for the fragment stage. */
  function SingleTextureLayout(): (l: BindGroupLayout)
    ensures |l.entries| == 2 && SlotsInOrder(l)
    ensures l.entries[0].ty == TEXTURE_2D && l.entries[1].ty == SAMPLER
    ensures forall i :: 0 <= i < |l.entries| ==> l.entries[i].visibility == {FragmentStage}
  {
    BindGroupLayout([BindGroupLayoutEntry(0, {FragmentStage}, TEXTURE_2D),
                     BindGroupLayoutEntry(1, {FragmentStage}, SAMPLER)],
                    "single_texture_bg_layout")
  }

  /** single_texture_bind_group: the texture's view at slot 0 and its sampler at slot 1. */
  function SingleTextureBindGroup(layout: BindGroupLayout, texture: Texture): BindGroup
  {
    BindGroup(layout, [Binding(0, TextureView(texture)), Binding(1, SamplerOf(texture))], "bind_group")
  }

  /** single_uniform_bind_group: bytes 0..size of the buffer at slot 0. */
  function SingleUniformBindGroup(layout: BindGroupLayout, buffer: array<Byte>, size: nat): BindGroup
  {
    BindGroup(layout, [Binding(0, BufferRange(buffer, 0, size))], "uniform_bind_group")
  }

  /** A texture group made against the texture schema matches it, slot by slot; against the uniform schema it does not. */
  lemma SingleTextureBindGroupConforms(texture: Texture)
    ensures Conforms(SingleTextureBindGroup(SingleTextureLayout(), texture))
    ensures !Conforms(SingleTextureBindGroup(SingleUniformBufferLayout(), texture))
  {
  }

  /**
   * A uniform group made against the uniform schema matches it exactly when its
   * range lies inside the buffer; against the texture schema it never does.
   */
  lemma SingleUniformBindGroupConforms(buffer: array<Byte>, size: nat)
    ensures Conforms(SingleUniformBindGroup(SingleUniformBufferLayout(), buffer, size)) <==> size <= buffer.Length
    ensures !Conforms(SingleUniformBindGroup(SingleTextureLayout(), buffer, size))
  {
  }

  /** compile_modules, with the compiler itself left out: what each module is compiled from, as what, under which name. */
  function CompileModules(vs: string, fs: string, tag: string): (ShaderModule, ShaderModule)
  {
    (ShaderModule(vs, VertexShader, tag + "_vs.glsl", "main"),
     ShaderModule(fs, FragmentShader, tag + "_fs.glsl", "main"))
  }

  /**
   * The two modules of one tag carry different names, the first source is the
   * vertex shader and the second the fragment shader, and both are compiled
   * for entry point "main".
   */
  lemma CompiledModulesOfOneTag(vs: string, fs: string, tag: string)
    ensures var (v, f) := CompileModules(vs, fs, tag);
      && v.source == vs && v.kind == VertexShader && f.source == fs && f.kind == FragmentShader
      && v.entryPoint == "main" == f.entryPoint
      && v.name != f.name
  {
    var (v, f) := CompileModules(vs, fs, tag);
    assert v.name[|tag| + 1] == 'v' && f.name[|tag| + 1] == 'f';
  }

  /** Module names identify their tag: different tags never give the same name. */
  lemma CompiledNamesIdentifyTag(tag1: string, tag2: string, vs1: string, fs1: string, vs2: string, fs2: string)
    requires tag1 != tag2
    ensures CompileModules(vs1, fs1, tag1).0.name != CompileModules(vs2, fs2, tag2).0.name
    ensures CompileModules(vs1, fs1, tag1).1.name != CompileModules(vs2, fs2, tag2).1.name
  {
    if tag1 + "_vs.glsl" == tag2 + "_vs.glsl" {
      SuffixCancels(tag1, tag2, "_vs.glsl");
    }
    if tag1 + "_fs.glsl" == tag2 + "_fs.glsl" {
      SuffixCancels(tag1, tag2, "_fs.glsl");
    }
  }

  lemma SuffixCancels(a: string, b: string, suffix: string)
    requires a + suffix == b + suffix
    ensures a == b
  {
    assert |a| == |b|;
    assert a == (a + suffix)[..|a|];
    assert b == (b + suffix)[..|b|];
  }
}
