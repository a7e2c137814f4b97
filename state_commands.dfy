/**
 * The commands the immediate context records to bring the backend in line
 * with (part of) its binding snapshot: one function per `Apply*` / `Bind*`
 * helper, and `RestoreCommands`, everything `RestoreState` records.
 */
module StateCommands {
  import opened Common
  import opened BufferSlices
  import opened ContextState
  import opened ContextRules
  import opened Commands

  /** `BindFramebuffer`: all eight colour targets (null where unbound) and the depth target. */
  function FramebufferCmd(s: CtxState): (c: Cmd)
    ensures c.BindRenderTargets? && c.colorTargets == s.om.renderTargetViews && c.depthTarget == s.om.depthStencilView
  {
    BindRenderTargets(s.om.renderTargetViews, s.om.depthStencilView)
  }

  /** `BindShader` for one stage, with a null shader when none is bound. */
  function ShaderCmd(s: CtxState, st: Stage): (c: Cmd)
    ensures c.BindShader? && c.stage == st && c.shader == StageOf(s, st).shader
  {
    BindShader(st, StageOf(s, st).shader)
  }

  /** `ApplyInputLayout`: the bound layout binds itself; without one, the empty layout (0) is set. */
  function InputLayoutCmd(s: CtxState): (c: Cmd)
    ensures c.SetInputLayout? && c.layout == s.ia.inputLayout
  {
    SetInputLayout(s.ia.inputLayout)
  }

  /** `ApplyPrimitiveTopology`: nothing for UNDEFINED, otherwise one input-assembly command. */
  function TopologyCmds(s: CtxState): (r: seq<Cmd>)
    ensures |r| <= 1
    ensures r == [] <==> s.ia.primitiveTopology == TopologyUndefined
    ensures r != [] ==> r[0] == SetInputAssemblyState(InputAssemblyFor(s.ia.primitiveTopology).value)
  {
    match InputAssemblyFor(s.ia.primitiveTopology)
    case None => []
    case Some(ia) => [SetInputAssemblyState(ia)]
  }

  /** `ApplyBlendState`: the bound blend state (0: the default one) with the stored sample mask. */
  function BlendStateCmd(s: CtxState): (c: Cmd)
    ensures c.BindBlendState? && c.blendState == s.om.cbState && c.sampleMask == s.om.sampleMask
  {
    BindBlendState(s.om.cbState, s.om.sampleMask)
  }

  /** `ApplyBlendFactor`: the four stored blend constants. */
  function BlendFactorCmd(s: CtxState): (c: Cmd)
    ensures c.SetBlendConstants? && c.factor == s.om.blendFactor
  {
    SetBlendConstants(s.om.blendFactor)
  }

  /** `ApplyDepthStencilState`: the bound state (0: the default one). */
  function DepthStencilStateCmd(s: CtxState): (c: Cmd)
    ensures c.BindDepthStencilState? && c.depthStencilState == s.om.dsState
  {
    BindDepthStencilState(s.om.dsState)
  }

  /** `ApplyStencilRef`. */
  function StencilRefCmd(s: CtxState): (c: Cmd)
    ensures c.SetStencilReference? && c.reference == s.om.stencilRef
  {
    SetStencilReference(s.om.stencilRef)
  }

  /** `ApplyRasterizerState`: the bound state (`NoRasterizer`: the default one). */
  function RasterizerStateCmd(s: CtxState): (c: Cmd)
    ensures c.BindRasterizerState? && c.rasterizerState == s.rs.state
  {
    BindRasterizerState(s.rs.state)
  }

  /**
   * `ApplyViewportState`: nothing without viewports; otherwise one command
   * with the flipped viewports and one scissor rectangle per viewport.
   */
  function ViewportCmds(rs: RsState): (r: seq<Cmd>)
    requires rs.numViewports <= |rs.viewports| && rs.numViewports <= |rs.scissors|
    ensures |r| <= 1
    ensures r == [] <==> rs.numViewports == 0
    ensures r != [] ==> (r[0].SetViewports? && r[0].count == rs.numViewports
                         && |r[0].viewports| == |r[0].scissors| == rs.numViewports)
    ensures r != [] ==> r[0].viewports == FlippedViewports(rs) && r[0].scissors == ScissorRects(rs)
  {
    if rs.numViewports == 0 then []
    else [SetViewports(rs.numViewports, FlippedViewports(rs), ScissorRects(rs))]
  }

  /** `BindIndexBuffer` for the stored binding. */
  function IndexBufferCmd(b: IbBinding): (c: Cmd)
    ensures c.BindIndexBuffer? && (c.slice.EmptySlice? <==> b.buffer.NoBuffer?)
    ensures c.BindIndexBuffer? && (c.indexType == Uint16 <==> b.buffer.BufferRef? && b.format == FormatR16Uint)
  {
    BindIndexBuffer(BufferSliceFrom(b.buffer, b.offset), IndexTypeFor(b.buffer, b.format))
  }

  /** `BindVertexBuffer` for one slot. */
  function VertexBufferCmd(slot: nat, b: VbBinding): (c: Cmd)
    ensures c.BindVertexBuffer? && c.slot == slot && (c.slice.EmptySlice? <==> b.buffer.NoBuffer?)
    ensures c.BindVertexBuffer? && (b.buffer.NoBuffer? ==> c.stride == 0)
  {
    BindVertexBuffer(slot, BufferSliceFrom(b.buffer, b.offset), VertexBufferStride(b))
  }

  /** `BindConstantBuffer` for one slot of one stage. */
  function ConstantBufferCmd(st: Stage, slot: nat, b: CbBinding): (c: Cmd)
    ensures c.BindConstantBuffer? && c.stage == st && c.slot == slot && (c.slice.EmptySlice? <==> b.buffer.NoBuffer?)
  {
    BindConstantBuffer(st, slot, ConstantBufferSlice(b))
  }

  /** The bind commands of the three slot kinds, as functions of slot and value. */
  function CbBinder(st: Stage): (nat, CbBinding) -> Cmd {
    (slot: nat, b: CbBinding) => ConstantBufferCmd(st, slot, b)
  }

  function SamplerBinder(st: Stage): (nat, Handle) -> Cmd {
    (slot: nat, h: Handle) => BindSampler(st, slot, h)
  }

  function ShaderResourceBinder(st: Stage): (nat, Handle) -> Cmd {
    (slot: nat, h: Handle) => BindShaderResource(st, slot, h)
  }

  /** One bind per slot, slot `i` binding `values[i]`, in slot order. */
  function AllSlotBinds<T>(values: seq<T>, bind: (nat, T) -> Cmd): (r: seq<Cmd>)
    ensures |r| == |values|
    ensures forall i :: 0 <= i < |r| ==> r[i] == bind(i, values[i])
  {
    seq(|values|, i requires 0 <= i < |values| => bind(i, values[i]))
  }

  /** Extending the restored range by one slot appends that slot's bind. */
  lemma AllSlotBindsSnoc<T>(values: seq<T>, i: nat, bind: (nat, T) -> Cmd)
    requires i < |values|
    ensures AllSlotBinds(values[..i + 1], bind) == AllSlotBinds(values[..i], bind) + [bind(i, values[i])]
  {
    var a := AllSlotBinds(values[..i + 1], bind);
    var b := AllSlotBinds(values[..i], bind) + [bind(i, values[i])];
    assert |a| == |b|;
    forall k | 0 <= k < |a| ensures a[k] == b[k] {
    }
  }

  /** The input-assembler part of the fixed-function state: layout, then topology. */
  function IaStateCmds(s: CtxState): (r: seq<Cmd>)
    ensures |r| == 1 + |TopologyCmds(s)|
  {
    [InputLayoutCmd(s)] + TopologyCmds(s)
  }

  /** The output-merger part: blend state, blend factor, depth-stencil state, stencil reference. */
  function OmStateCmds(s: CtxState): (r: seq<Cmd>)
    ensures |r| == 4
  {
    [BlendStateCmd(s), BlendFactorCmd(s), DepthStencilStateCmd(s), StencilRefCmd(s)]
  }

  /** The rasterizer part: the state object, then the viewports and scissors. */
  function RsStateCmds(s: CtxState): (r: seq<Cmd>)
    requires WellFormed(s)
    ensures |r| == 1 + |ViewportCmds(s.rs)|
  {
    [RasterizerStateCmd(s)] + ViewportCmds(s.rs)
  }

  /** The commands for the fixed-function state, in `RestoreState`'s order. */
  function FixedStateCmds(s: CtxState): (r: seq<Cmd>)
    requires WellFormed(s)
    ensures |r| == 6 + |TopologyCmds(s)| + |ViewportCmds(s.rs)|
  {
    IaStateCmds(s) + OmStateCmds(s) + RsStateCmds(s)
  }

  /** `BindFramebuffer`, the three shaders, the fixed-function state and the index buffer. */
  function RestoreFixedCommands(s: CtxState): (r: seq<Cmd>)
    requires WellFormed(s)
    ensures |r| == 11 + |TopologyCmds(s)| + |ViewportCmds(s.rs)|
  {
    [FramebufferCmd(s), ShaderCmd(s, Vertex), ShaderCmd(s, Geometry), ShaderCmd(s, Pixel)]
    + FixedStateCmds(s) + [IndexBufferCmd(s.ia.indexBuffer)]
  }

  /** The constant-buffer binds of the three stages, vertex stage first. */
  function ConstantBufferBinds(s: CtxState): (r: seq<Cmd>)
    requires WellFormed(s)
    ensures |r| == 3 * ConstantBufferSlots
  {
    AllSlotBinds(s.vs.constantBuffers, CbBinder(Vertex))
    + AllSlotBinds(s.gs.constantBuffers, CbBinder(Geometry))
    + AllSlotBinds(s.ps.constantBuffers, CbBinder(Pixel))
  }

  /** The sampler binds of the three stages, vertex stage first. */
  function SamplerBinds(s: CtxState): (r: seq<Cmd>)
    requires WellFormed(s)
    ensures |r| == 3 * SamplerSlots
  {
    AllSlotBinds(s.vs.samplers, SamplerBinder(Vertex))
    + AllSlotBinds(s.gs.samplers, SamplerBinder(Geometry))
    + AllSlotBinds(s.ps.samplers, SamplerBinder(Pixel))
  }

  /** The shader-resource binds of the three stages, vertex stage first. */
  function ShaderResourceBinds(s: CtxState): (r: seq<Cmd>)
    requires WellFormed(s)
    ensures |r| == 3 * ShaderResourceSlots
  {
    AllSlotBinds(s.vs.shaderResources, ShaderResourceBinder(Vertex))
    + AllSlotBinds(s.gs.shaderResources, ShaderResourceBinder(Geometry))
    + AllSlotBinds(s.ps.shaderResources, ShaderResourceBinder(Pixel))
  }

  /** Every vertex-buffer slot, then every slot of every stage: constant buffers, samplers, views. */
  function RestoreSlotCommands(s: CtxState): (r: seq<Cmd>)
    requires WellFormed(s)
    ensures |r| == VertexBufferSlots + 3 * (ConstantBufferSlots + SamplerSlots + ShaderResourceSlots)
  {
    AllSlotBinds(s.ia.vertexBuffers, VertexBufferCmd) + ConstantBufferBinds(s) + SamplerBinds(s) + ShaderResourceBinds(s)
  }

  /** Everything `RestoreState` records. */
  function RestoreCommands(s: CtxState): (r: seq<Cmd>)
    requires WellFormed(s)
  {
    RestoreFixedCommands(s) + RestoreSlotCommands(s)
  }

  /**
   * `RestoreState` re-emits every piece of state: 501 commands, plus one
   * for a defined topology and one when viewports are set.
   */
  lemma RestoreCommandsCount(s: CtxState)
    requires WellFormed(s)
    ensures |RestoreCommands(s)| == 501
      + (if s.ia.primitiveTopology == TopologyUndefined then 0 else 1)
      + (if s.rs.numViewports == 0 then 0 else 1)
  {
  }

  /** A command that binds no object, no buffer range and no non-default value. */
  predicate BindsNothing(c: Cmd) {
    match c
    case BindShader(_, shader) => shader == NullHandle
    case BindRenderTargets(colorTargets, depthTarget) => (forall i :: 0 <= i < |colorTargets| ==> colorTargets[i] == NullHandle) && depthTarget == NullHandle
    case SetInputLayout(layout) => layout == NullHandle
    case BindBlendState(blendState, sampleMask) => blendState == NullHandle && sampleMask == DefaultSampleMask
    case SetBlendConstants(factor) => factor == [0.0, 0.0, 0.0, 0.0]
    case BindDepthStencilState(depthStencilState) => depthStencilState == NullHandle
    case SetStencilReference(reference) => reference == DefaultStencilRef
    case BindRasterizerState(rasterizerState) => rasterizerState == NoRasterizer
    case BindIndexBuffer(slice, indexType) => slice == EmptySlice && indexType == Uint32
    case BindVertexBuffer(_, slice, stride) => slice == EmptySlice && stride == 0
    case BindConstantBuffer(_, _, slice) => slice == EmptySlice
    case BindSampler(_, _, sampler) => sampler == NullHandle
    case BindShaderResource(_, _, view) => view == NullHandle
    case _ => false
  }

  lemma AllSlotBindsNothing<T>(values: seq<T>, bind: (nat, T) -> Cmd, v: T)
    requires forall i :: 0 <= i < |values| ==> values[i] == v
    requires forall i: nat :: BindsNothing(bind(i, v))
    ensures forall c :: c in AllSlotBinds(values, bind) ==> BindsNothing(c)
  {
  }

  /**
   * After `ClearState`'s reset, `RestoreState` records exactly 501
   * commands (no topology and no viewport command) and every one of them
   * unbinds: null objects, empty slices, default masks and references.
   */
  lemma ClearedRestoreBindsNothing(s: CtxState)
    requires WellFormed(s)
    ensures |RestoreCommands(Cleared(s))| == 501
    ensures forall c :: c in RestoreCommands(Cleared(s)) ==> BindsNothing(c)
  {
    var t := Cleared(s);
    RestoreCommandsCount(t);
    assert TopologyCmds(t) == [] && ViewportCmds(t.rs) == [];
    ClearedFixedBindsNothing(s);
    ClearedSlotsBindNothing(s);
  }

  /** The fixed-function part of restoring a cleared snapshot binds nothing. */
  lemma ClearedFixedBindsNothing(s: CtxState)
    requires WellFormed(s)
    ensures forall c :: c in RestoreFixedCommands(Cleared(s)) ==> BindsNothing(c)
  {
    var t := Cleared(s);
    assert TopologyCmds(t) == [] && ViewportCmds(t.rs) == [];
    assert FixedStateCmds(t) == [InputLayoutCmd(t), BlendStateCmd(t), BlendFactorCmd(t), DepthStencilStateCmd(t),
                                 StencilRefCmd(t), RasterizerStateCmd(t)];
  }

  /** The slot part of restoring a cleared snapshot binds nothing. */
  lemma ClearedSlotsBindNothing(s: CtxState)
    requires WellFormed(s)
    ensures forall c :: c in RestoreSlotCommands(Cleared(s)) ==> BindsNothing(c)
  {
    var t := Cleared(s);
    AllSlotBindsNothing(t.ia.vertexBuffers, VertexBufferCmd, NullVbBinding);
    forall st: Stage ensures forall c :: c in AllSlotBinds(StageOf(t, st).constantBuffers, CbBinder(st)) ==> BindsNothing(c)
    {
      AllSlotBindsNothing(StageOf(t, st).constantBuffers, CbBinder(st), NullCbBinding);
    }
    forall st: Stage ensures forall c :: c in AllSlotBinds(StageOf(t, st).samplers, SamplerBinder(st)) ==> BindsNothing(c)
    {
      AllSlotBindsNothing(StageOf(t, st).samplers, SamplerBinder(st), NullHandle);
    }
    forall st: Stage ensures forall c :: c in AllSlotBinds(StageOf(t, st).shaderResources, ShaderResourceBinder(st)) ==> BindsNothing(c)
    {
      AllSlotBindsNothing(StageOf(t, st).shaderResources, ShaderResourceBinder(st), NullHandle);
    }
    assert t.vs == StageOf(t, Vertex) && t.gs == StageOf(t, Geometry) && t.ps == StageOf(t, Pixel);
  }

  /** Appending commands that bind nothing leaves every appended position binding nothing. */
  lemma SuffixBindsNothing(before: seq<Cmd>, added: seq<Cmd>)
    requires forall c :: c in added ==> BindsNothing(c)
    ensures forall k :: |before| <= k < |before + added| ==> BindsNothing((before + added)[k])
  {
    forall k | |before| <= k < |before + added|
      ensures BindsNothing((before + added)[k])
    {
      assert (before + added)[k] == added[k - |before|];
    }
  }
}
