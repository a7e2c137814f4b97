/**
 * The binding snapshot a `D3D10Device` keeps for its immediate context
 * (`D3D10ContextState` and its parts), the defaults its declaration gives
 * and the state `ClearState` resets it to.
 */
module ContextState {
  import opened Common
  import opened BufferSlices

  // Slot counts from the Direct3D 10 headers.
  const ConstantBufferSlots: nat := 14   // D3D10_COMMONSHADER_CONSTANT_BUFFER_API_SLOT_COUNT
  const SamplerSlots: nat := 16          // D3D10_COMMONSHADER_SAMPLER_SLOT_COUNT
  const ShaderResourceSlots: nat := 128  // D3D10_COMMONSHADER_INPUT_RESOURCE_SLOT_COUNT
  const VertexBufferSlots: nat := 16     // D3D10_IA_VERTEX_INPUT_RESOURCE_SLOT_COUNT
  const RenderTargetSlots: nat := 8      // D3D10_SIMULTANEOUS_RENDER_TARGET_COUNT
  const ViewportSlots: nat := 16         // D3D10_VIEWPORT_AND_SCISSORRECT_OBJECT_COUNT_PER_PIPELINE
  const StreamOutputSlots: nat := 4

  const DefaultSampleMask: nat := 0xFFFF_FFFF  // D3D10_DEFAULT_SAMPLE_MASK
  const DefaultStencilRef: nat := 0            // D3D10_DEFAULT_STENCIL_REFERENCE

  // DXGI_FORMAT values the context interprets.
  const FormatUnknown: nat := 0
  const FormatR32Uint: nat := 42
  const FormatR16Uint: nat := 57

  // D3D10_PRIMITIVE_TOPOLOGY values.
  const TopologyUndefined: nat := 0
  const TopologyPointList: nat := 1
  const TopologyLineList: nat := 2
  const TopologyLineStrip: nat := 3
  const TopologyTriangleList: nat := 4
  const TopologyTriangleStrip: nat := 5
  const TopologyLineListAdj: nat := 10
  const TopologyLineStripAdj: nat := 11
  const TopologyTriangleListAdj: nat := 12
  const TopologyTriangleStripAdj: nat := 13

  /** The three programmable stages a D3D10 context binds resources for. */
  datatype Stage = Vertex | Geometry | Pixel

  datatype CbBinding = CbBinding(buffer: BufferRef, constantOffset: nat, constantCount: nat)

  const NullCbBinding := CbBinding(NoBuffer, 0, 0)

  datatype StageState = StageState(
    shader: Handle,
    constantBuffers: seq<CbBinding>,
    samplers: seq<Handle>,
    shaderResources: seq<Handle>)

  datatype VbBinding = VbBinding(buffer: BufferRef, offset: nat, stride: nat)

  const NullVbBinding := VbBinding(NoBuffer, 0, 0)

  datatype IbBinding = IbBinding(buffer: BufferRef, offset: nat, format: nat)

  datatype IaState = IaState(
    inputLayout: Handle,
    primitiveTopology: nat,
    vertexBuffers: seq<VbBinding>,
    indexBuffer: IbBinding)

  /** The blend factor is a FLOAT[4]; it is only stored and copied, so reals stand for it. */
  datatype OmState = OmState(
    renderTargetViews: seq<Handle>,
    depthStencilView: Handle,
    cbState: Handle,
    dsState: Handle,
    blendFactor: seq<real>,
    sampleMask: nat,
    stencilRef: nat)

  /** `D3D10_VIEWPORT`: integer origin, unsigned extent, FLOAT depth range. */
  datatype Viewport = Viewport(topLeftX: int, topLeftY: int, width: nat, height: nat, minDepth: real, maxDepth: real)

  const ZeroViewport := Viewport(0, 0, 0, 0, 0.0, 0.0)

  /** `D3D10_RECT`: four LONG edges. */
  datatype Rect = Rect(left: int, top: int, right: int, bottom: int)

  const ZeroRect := Rect(0, 0, 0, 0)

  /**
   * A rasterizer state object by identity, carrying the one field of its
   * descriptor the context reads back (`ScissorEnable`).
   */
  datatype RasterizerRef = NoRasterizer | Rasterizer(id: nat, scissorEnable: bool)

  datatype RsState = RsState(
    numViewports: nat,
    numScissors: nat,
    viewports: seq<Viewport>,
    scissors: seq<Rect>,
    state: RasterizerRef)

  datatype SoState = SoState(targets: seq<BufferRef>)

  datatype PrState = PrState(predicateObject: Handle, predicateValue: bool)

  datatype CtxState = CtxState(
    gs: StageState,
    ps: StageState,
    vs: StageState,
    ia: IaState,
    om: OmState,
    rs: RsState,
    so: SoState,
    pr: PrState)

  predicate StageWellFormed(ss: StageState) {
    |ss.constantBuffers| == ConstantBufferSlots
    && |ss.samplers| == SamplerSlots
    && |ss.shaderResources| == ShaderResourceSlots
  }

  /** The fixed array sizes of the snapshot, and the counts kept within them. */
  predicate WellFormed(s: CtxState) {
    StageWellFormed(s.vs) && StageWellFormed(s.gs) && StageWellFormed(s.ps)
    && |s.ia.vertexBuffers| == VertexBufferSlots
    && |s.om.renderTargetViews| == RenderTargetSlots
    && |s.om.blendFactor| == 4
    && s.om.sampleMask < TwoTo32
    && s.om.stencilRef < TwoTo32
    && s.rs.numViewports <= ViewportSlots
    && s.rs.numScissors <= ViewportSlots
    && |s.rs.viewports| == ViewportSlots
    && |s.rs.scissors| == ViewportSlots
    && |s.so.targets| == StreamOutputSlots
  }

  function StageOf(s: CtxState, st: Stage): StageState {
    match st
    case Vertex => s.vs
    case Geometry => s.gs
    case Pixel => s.ps
  }

  /** The snapshot with one stage's bindings replaced and everything else kept. */
  function WithStage(s: CtxState, st: Stage, ss: StageState): (r: CtxState)
    ensures StageOf(r, st) == ss
    ensures forall o :: o != st ==> StageOf(r, o) == StageOf(s, o)
    ensures r.ia == s.ia && r.om == s.om && r.rs == s.rs && r.so == s.so && r.pr == s.pr
    ensures StageWellFormed(ss) && WellFormed(s) ==> WellFormed(r)
  {
    match st
    case Vertex => s.(vs := ss)
    case Geometry => s.(gs := ss)
    case Pixel => s.(ps := ss)
  }

  function NullStage(): StageState {
    StageState(
      NullHandle,
      seq(ConstantBufferSlots, _ => NullCbBinding),
      seq(SamplerSlots, _ => NullHandle),
      seq(ShaderResourceSlots, _ => NullHandle))
  }

  /**
   * The snapshot as `D3D10ContextState`'s member initialisers leave it:
   * blend factor {1,1,1,1}, sample mask 0xFFFFFFFF, stencil reference 0,
   * topology UNDEFINED, index format UNKNOWN and no viewports or scissors.
   */
  function DefaultState(): (s: CtxState)
    ensures WellFormed(s)
    ensures s.om.blendFactor == [1.0, 1.0, 1.0, 1.0]
    ensures s.om.sampleMask == DefaultSampleMask && s.om.stencilRef == 0
    ensures s.ia.primitiveTopology == TopologyUndefined && s.ia.indexBuffer.format == FormatUnknown
    ensures s.rs.numViewports == 0 && s.rs.numScissors == 0
    ensures s.pr == PrState(NullHandle, false)
    ensures forall i :: 0 <= i < VertexBufferSlots ==> s.ia.vertexBuffers[i] == NullVbBinding
    ensures forall st: Stage, i :: 0 <= i < ConstantBufferSlots ==> StageOf(s, st).constantBuffers[i] == NullCbBinding
  {
    CtxState(
      NullStage(), NullStage(), NullStage(),
      IaState(NullHandle, TopologyUndefined, seq(VertexBufferSlots, _ => NullVbBinding), IbBinding(NoBuffer, 0, FormatUnknown)),
      OmState(seq(RenderTargetSlots, _ => NullHandle), NullHandle, NullHandle, NullHandle, [1.0, 1.0, 1.0, 1.0], DefaultSampleMask, DefaultStencilRef),
      RsState(0, 0, seq(ViewportSlots, _ => ZeroViewport), seq(ViewportSlots, _ => ZeroRect), NoRasterizer),
      SoState(seq(StreamOutputSlots, _ => NoBuffer)),
      PrState(NullHandle, false))
  }

  /**
   * What `ClearState` writes: every shader, slot, view and state object
   * null, topology UNDEFINED, index format UNKNOWN, blend factor 0, the
   * default sample mask and stencil reference, no viewports or scissors and
   * no predicate. The stream-output targets are not touched.
   */
  function Cleared(s: CtxState): (r: CtxState)
    requires WellFormed(s)
    ensures WellFormed(r)
    ensures r.so == s.so
    ensures r.om.blendFactor == [0.0, 0.0, 0.0, 0.0]
    ensures r.om.sampleMask == DefaultSampleMask && r.om.stencilRef == DefaultStencilRef
    ensures r.ia.primitiveTopology == TopologyUndefined && r.ia.indexBuffer == IbBinding(NoBuffer, 0, FormatUnknown)
    ensures r.rs.numViewports == 0 && r.rs.numScissors == 0 && r.rs.state == NoRasterizer
    ensures r.pr == PrState(NullHandle, false)
    ensures r.ia.inputLayout == NullHandle && r.om.depthStencilView == NullHandle
    ensures r.om.cbState == NullHandle && r.om.dsState == NullHandle
    ensures forall st: Stage :: StageOf(r, st).shader == NullHandle
    ensures forall st: Stage, i :: 0 <= i < ConstantBufferSlots ==> StageOf(r, st).constantBuffers[i] == NullCbBinding
    ensures forall st: Stage, i :: 0 <= i < SamplerSlots ==> StageOf(r, st).samplers[i] == NullHandle
    ensures forall st: Stage, i :: 0 <= i < ShaderResourceSlots ==> StageOf(r, st).shaderResources[i] == NullHandle
    ensures forall i :: 0 <= i < VertexBufferSlots ==> r.ia.vertexBuffers[i] == NullVbBinding
    ensures forall i :: 0 <= i < RenderTargetSlots ==> r.om.renderTargetViews[i] == NullHandle
  {
    DefaultState().(
      om := DefaultState().om.(blendFactor := [0.0, 0.0, 0.0, 0.0]),
      so := s.so)
  }

  /**
   * The two sources of defaults disagree in exactly one place: the
   * declaration starts the blend factor at 1 and `ClearState` writes 0.
   */
  lemma ClearedVersusDeclaredDefaults(s: CtxState)
    requires WellFormed(s) && s.so == DefaultState().so
    ensures Cleared(s) != DefaultState()
    ensures Cleared(s).(om := Cleared(s).om.(blendFactor := [1.0, 1.0, 1.0, 1.0])) == DefaultState()
  {
    assert Cleared(s).om.blendFactor[0] == 0.0;
  }

  /** Clearing twice is clearing once. */
  lemma ClearedIdempotent(s: CtxState)
    requires WellFormed(s)
    ensures Cleared(Cleared(s)) == Cleared(s)
  {
  }
}
