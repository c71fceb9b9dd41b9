// The parts of the wgpu interface the pipelines use, as plain descriptors:
// binding schemas (bind-group layouts), bind-group instances, buffers as byte
// arrays with the buffer-to-buffer copy, render-pipeline descriptors and the
// record of one render pass. The GPU driver behind them is not modelled.
module Wgpu {
  import opened Wrappers
  import opened RenderTypes
  import opened Geometry

  // ---------------------------------------------------------------------------
  // Binding schemas and bind groups

  datatype ShaderStage = VertexStage | FragmentStage
  datatype TextureViewDimension = D2
  datatype TextureComponentType = ComponentUint

  /** The kind of resource a binding slot expects. */
  datatype BindingType =
    | UniformBuffer(dynamic: bool)
    | StorageBuffer(dynamic: bool, readonly: bool)
    | SampledTexture(multisampled: bool, dimension: TextureViewDimension, componentType: TextureComponentType)
    | Sampler(comparison: bool)

  datatype BindGroupLayoutEntry = BindGroupLayoutEntry(binding: nat, visibility: set<ShaderStage>, ty: BindingType)

  /** A binding schema: an ordered list of (slot, visibility, kind). */
  datatype BindGroupLayout = BindGroupLayout(entries: seq<BindGroupLayoutEntry>, debugLabel: string)

  /** A loaded texture: its image, with the view and the sampler made for it. */
  datatype Texture = Texture(id: nat)

  datatype BindingResource =
    | BufferRange(buffer: array<Byte>, start: nat, end: nat)
    | TextureView(texture: Texture)
    | SamplerOf(texture: Texture)

  datatype Binding = Binding(binding: nat, resource: BindingResource)

  /** A bind-group instance: the schema it is made against and the resources it binds, in order. */
  datatype BindGroup = BindGroup(layout: BindGroupLayout, bindings: seq<Binding>, debugLabel: string)

  /** Whether a resource is of the kind a slot expects; a buffer range must lie inside its buffer. */
  predicate Accepts(ty: BindingType, r: BindingResource)
  {
    match ty
    case UniformBuffer(_) => r.BufferRange? && r.start <= r.end <= r.buffer.Length
    case StorageBuffer(_, _) => r.BufferRange? && r.start <= r.end <= r.buffer.Length
    case SampledTexture(_, _, _) => r.TextureView?
    case Sampler(_) => r.SamplerOf?
  }

  /** A bind group matches its schema: same count, and slot by slot the same slot number and a resource of the expected kind. */
  predicate Conforms(g: BindGroup)
  {
    && |g.bindings| == |g.layout.entries|
    && forall i :: 0 <= i < |g.bindings| ==>
         g.bindings[i].binding == g.layout.entries[i].binding && Accepts(g.layout.entries[i].ty, g.bindings[i].resource)
  }

  datatype BindGroupError = CountMismatch | SlotMismatch(index: nat) | KindMismatch(index: nat)

  /** The first position, from `from` on, where bindings and entries disagree. */
  function FirstMismatch(entries: seq<BindGroupLayoutEntry>, bindings: seq<Binding>, from: nat): (r: Option<BindGroupError>)
    requires |entries| == |bindings| && from <= |entries|
    ensures r.None? <==> forall i :: from <= i < |bindings| ==>
      bindings[i].binding == entries[i].binding && Accepts(entries[i].ty, bindings[i].resource)
    ensures r.Some? ==> r.value.SlotMismatch? || r.value.KindMismatch?
    decreases |entries| - from
  {
    if from == |entries| then None
    else if bindings[from].binding != entries[from].binding then Some(SlotMismatch(from))
    else if !Accepts(entries[from].ty, bindings[from].resource) then Some(KindMismatch(from))
    else FirstMismatch(entries, bindings, from + 1)
  }

  /**
   * Device::create_bind_group's check of a bind group against its schema. A
   * mismatch is a construction error.
   */
  function CreateBindGroup(layout: BindGroupLayout, bindings: seq<Binding>, debugLabel: string): (r: Result<BindGroup, BindGroupError>)
    ensures r.Ok? <==> Conforms(BindGroup(layout, bindings, debugLabel))
    ensures r.Ok? ==> r.value == BindGroup(layout, bindings, debugLabel)
  {
    if |bindings| != |layout.entries| then Err(CountMismatch)
    else match FirstMismatch(layout.entries, bindings, 0)
      case None => Ok(BindGroup(layout, bindings, debugLabel))
      case Some(e) => Err(e)
  }

  // ---------------------------------------------------------------------------
  // Buffers

  /** Device::create_buffer_with_data: a fresh buffer holding exactly `data`. */
  method CreateBufferWithData(data: seq<Byte>) returns (b: array<Byte>)
    ensures fresh(b) && b[..] == data
  {
    b := new Byte[|data|](i requires 0 <= i < |data| => data[i]);
  }

  /**
   * CommandEncoder::copy_buffer_to_buffer, taking effect in recording order:
   * `size` bytes from `src` at `srcOffset` replace those of `dst` at
   * `dstOffset`; the rest of `dst` is unchanged.
   */
  method CopyBufferToBuffer(src: array<Byte>, srcOffset: nat, dst: array<Byte>, dstOffset: nat, size: nat)
    requires src != dst
    requires srcOffset + size <= src.Length && dstOffset + size <= dst.Length
    modifies dst
    ensures dst[..] == old(dst[..dstOffset]) + src[srcOffset..srcOffset + size] + old(dst[dstOffset + size..])
  {
    forall i | dstOffset <= i < dstOffset + size {
      dst[i] := src[srcOffset + (i - dstOffset)];
    }
    assert dst[..] == dst[..dstOffset] + dst[dstOffset..dstOffset + size] + dst[dstOffset + size..];
  }

  // ---------------------------------------------------------------------------
  // Shader modules and render pipelines

  datatype ShaderKind = VertexShader | FragmentShader

  /** A compiled shader module: its GLSL source, the name and kind it was compiled under, and the entry point compiled. */
  datatype ShaderModule = ShaderModule(source: string, kind: ShaderKind, name: string, entryPoint: string)

  /** A pipeline stage: a shader module and the entry point the pipeline calls. */
  datatype ProgrammableStage = ProgrammableStage(shader: ShaderModule, entryPoint: string)

  datatype PrimitiveTopology = TriangleList | TriangleStrip
  datatype FrontFace = Ccw | Cw
  datatype CullMode = CullBack
  datatype CompareFunction = Less
  datatype TextureFormat = DepthFormat
  datatype IndexFormat = Uint16

  datatype DepthStencilState = DepthStencilState(format: TextureFormat, depthWriteEnabled: bool, depthCompare: CompareFunction)

  datatype RenderPipelineDesc = RenderPipelineDesc(
    bindGroupLayouts: seq<BindGroupLayout>,
    vertexStage: ProgrammableStage, fragmentStage: ProgrammableStage,
    frontFace: FrontFace, cullMode: CullMode, topology: PrimitiveTopology,
    depthStencil: Option<DepthStencilState>, indexFormat: IndexFormat,
    vertexBuffers: seq<VertexBufferDesc>)

  // ---------------------------------------------------------------------------
  // A recorded render pass

  datatype Color = Color(r: real, g: real, b: real, a: real)

  datatype DepthStencilClear = DepthStencilClear(attachment: Texture, clearDepth: real, clearStencil: nat)

  /** draw_indexed(indexStart..indexEnd, baseVertex, instanceStart..instanceEnd). */
  datatype DrawIndexed = DrawIndexed(indexStart: nat, indexEnd: nat, baseVertex: int, instanceStart: nat, instanceEnd: nat)

  /**
   * What one pass records: its clears, the pipeline it sets, the bind groups it
   * sets (group index, group), the geometry whose vertex and index buffers it
   * sets, and its draw call, if any.
   */
  datatype RenderPassRecord<V> = RenderPassRecord(
    clearColor: Color, depthStencil: Option<DepthStencilClear>, pipeline: RenderPipelineDesc,
    bindGroups: seq<(nat, BindGroup)>, geometry: Option<Geometry<V>>, draw: Option<DrawIndexed>)

  /** Every bind group the pass sets is made against the pipeline's schema for that group index, and conforms to it. */
  predicate BindsMatchPipeline<V>(pass: RenderPassRecord<V>)
  {
    forall j :: 0 <= j < |pass.bindGroups| ==>
      && pass.bindGroups[j].0 < |pass.pipeline.bindGroupLayouts|
      && pass.bindGroups[j].1.layout == pass.pipeline.bindGroupLayouts[pass.bindGroups[j].0]
      && Conforms(pass.bindGroups[j].1)
  }

  /** The group indices a pass sets. */
  function BoundGroups<V>(pass: RenderPassRecord<V>): set<nat>
  {
    set j | 0 <= j < |pass.bindGroups| :: pass.bindGroups[j].0
  }

  /**
   * A draw is well-formed: every group of the pipeline is set, a geometry is
   * bound, and the index range lies inside its index buffer, whose indices all
   * name vertices.
   */
  predicate DrawIsWellFormed<V>(pass: RenderPassRecord<V>)
  {
    pass.draw.Some? ==>
      && (forall s :: 0 <= s < |pass.pipeline.bindGroupLayouts| ==> s in BoundGroups(pass))
      && pass.geometry.Some?
      && pass.draw.value.indexStart <= pass.draw.value.indexEnd <= |pass.geometry.value.indexBuffer|
      && IndicesInRange(pass.geometry.value)
  }
}
