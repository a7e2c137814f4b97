/**
 * The commands the D3D10 front end records for the backend worker. Each
 * `EmitCs` closure of the source becomes one `Cmd` value carrying what the
 * closure captured; what the worker later does with it is not modelled.
 */
module Commands {
  import opened Common
  import opened BufferSlices
  import opened ContextState
  import opened ContextRules

  /** The aspect, mip level and array layer of one image subresource. */
  datatype Subresource = Subresource(aspect: nat, mipLevel: nat, arrayLayer: nat)

  datatype Offset3 = Offset3(x: int, y: int, z: int)

  datatype Extent3 = Extent3(width: nat, height: nat, depth: nat)

  datatype Cmd =
    | BeginRecording
    | SubmitCommandList
    | BindShader(stage: Stage, shader: Handle)
    | BindRenderTargets(colorTargets: seq<Handle>, depthTarget: Handle)
      /** `BindToContext` of a bound input layout, or `setInputLayout(0, …)` for null (layout 0). */
    | SetInputLayout(layout: Handle)
    | SetInputAssemblyState(state: InputAssembly)
      /** Blend and depth-stencil states: handle 0 names the device's default object; so does `NoRasterizer`. */
    | BindBlendState(blendState: Handle, sampleMask: nat)
    | SetBlendConstants(factor: seq<real>)
    | BindDepthStencilState(depthStencilState: Handle)
    | SetStencilReference(reference: nat)
    | BindRasterizerState(rasterizerState: RasterizerRef)
    | SetViewports(count: nat, viewports: seq<VkViewport>, scissors: seq<VkRect>)
    | BindVertexBuffer(slot: nat, slice: Slice, stride: nat)
    | BindIndexBuffer(slice: Slice, indexType: IndexType)
    | BindConstantBuffer(stage: Stage, slot: nat, slice: Slice)
    | BindSampler(stage: Stage, slot: nat, sampler: Handle)
    | BindShaderResource(stage: Stage, slot: nat, view: Handle)
    | Draw(vertexCount: nat, instanceCount: nat, firstVertex: nat, firstInstance: nat)
    | DrawIndexed(indexCount: nat, instanceCount: nat, firstIndex: nat, vertexOffset: int, firstInstance: nat)
    | CopyBuffer(dst: Slice, src: Slice)
    | CopyImage(dstImage: nat, dstSubresource: Subresource, dstOffset: Offset3, srcImage: nat, srcSubresource: Subresource, srcOffset: Offset3, extent: Extent3)
    | UpdateBuffer(dst: Slice)
    | InvalidateBuffer(buffer: nat, physicalSlice: nat)
    | CopyImageToBuffer(buffer: nat, image: nat, subresource: Subresource)
    | CopyBufferToImage(image: nat, subresource: Subresource, buffer: nat)

  /** The commands of a sequence of chunks, in dispatch order. */
  function Flatten(chunks: seq<seq<Cmd>>): (r: seq<Cmd>)
    ensures chunks == [] ==> r == []
  {
    if chunks == [] then [] else Flatten(chunks[..|chunks| - 1]) + chunks[|chunks| - 1]
  }

  /** Dispatching one more chunk appends exactly its commands. */
  lemma FlattenPush(chunks: seq<seq<Cmd>>, c: seq<Cmd>)
    ensures Flatten(chunks + [c]) == Flatten(chunks) + c
  {
    assert (chunks + [c])[..|chunks|] == chunks;
  }

  /** Regrouping recorded command runs. */
  lemma AppendAssoc(a: seq<Cmd>, b: seq<Cmd>, c: seq<Cmd>)
    ensures a + b + c == a + (b + c)
  {
  }
}
