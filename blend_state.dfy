/**
 * `D3D10BlendState`: decoding a D3D10.1 blend descriptor into the eight
 * per-target Vulkan blend modes, the conversion between the D3D10 and
 * D3D10.1 descriptor layouts, and the default descriptor.
 */
module BlendState {

  /** Colour targets a blend descriptor describes. */
  const RenderTargetCount: nat := 8

  // D3D10_BLEND values.
  const BlendZero: nat := 1
  const BlendOne: nat := 2
  const BlendSrcColor: nat := 3
  const BlendInvSrcColor: nat := 4
  const BlendSrcAlpha: nat := 5
  const BlendInvSrcAlpha: nat := 6
  const BlendDestAlpha: nat := 7
  const BlendInvDestAlpha: nat := 8
  const BlendDestColor: nat := 9
  const BlendInvDestColor: nat := 10
  const BlendSrcAlphaSat: nat := 11
  const BlendBlendFactor: nat := 14
  const BlendInvBlendFactor: nat := 15
  const BlendSrc1Color: nat := 16
  const BlendInvSrc1Color: nat := 17
  const BlendSrc1Alpha: nat := 18
  const BlendInvSrc1Alpha: nat := 19

  const KnownBlendFactors: set<nat> := {
    BlendZero, BlendOne, BlendSrcColor, BlendInvSrcColor, BlendSrcAlpha, BlendInvSrcAlpha,
    BlendDestAlpha, BlendInvDestAlpha, BlendDestColor, BlendInvDestColor, BlendSrcAlphaSat,
    BlendBlendFactor, BlendInvBlendFactor, BlendSrc1Color, BlendInvSrc1Color, BlendSrc1Alpha, BlendInvSrc1Alpha}

  // D3D10_BLEND_OP values.
  const BlendOpAdd: nat := 1
  const BlendOpSubtract: nat := 2
  const BlendOpRevSubtract: nat := 3
  const BlendOpMin: nat := 4
  const BlendOpMax: nat := 5

  /** D3D10_COLOR_WRITE_ENABLE_ALL. */
  const ColorWriteEnableAll: nat := 15

  datatype VkBlendFactor =
    | FactorZero | FactorOne | FactorSrcColor | FactorOneMinusSrcColor | FactorSrcAlpha | FactorOneMinusSrcAlpha
    | FactorDstAlpha | FactorOneMinusDstAlpha | FactorDstColor | FactorOneMinusDstColor | FactorSrcAlphaSaturate
    | FactorConstantColor | FactorOneMinusConstantColor | FactorConstantAlpha | FactorOneMinusConstantAlpha
    | FactorSrc1Color | FactorOneMinusSrc1Color | FactorSrc1Alpha | FactorOneMinusSrc1Alpha

  datatype VkBlendOp = OpAdd | OpSubtract | OpReverseSubtract | OpMin | OpMax

  /** `D3D10_RENDER_TARGET_BLEND_DESC1`. */
  datatype TargetBlendDesc = TargetBlendDesc(
    blendEnable: bool, srcBlend: nat, destBlend: nat, blendOp: nat,
    srcBlendAlpha: nat, destBlendAlpha: nat, blendOpAlpha: nat, writeMask: nat)

  /** `D3D10_BLEND_DESC1`: one target descriptor per colour target. */
  datatype BlendDesc1 = BlendDesc1(alphaToCoverage: bool, independentBlend: bool, renderTarget: seq<TargetBlendDesc>)

  /** `D3D10_BLEND_DESC`: shared factors and ops, per-target enable and write mask. */
  datatype BlendDesc = BlendDesc(
    alphaToCoverage: bool, blendEnable: seq<bool>, srcBlend: nat, destBlend: nat, blendOp: nat,
    srcBlendAlpha: nat, destBlendAlpha: nat, blendOpAlpha: nat, writeMask: seq<nat>)

  predicate WellFormed1(d: BlendDesc1) {
    |d.renderTarget| == RenderTargetCount
  }

  predicate WellFormed(d: BlendDesc) {
    |d.blendEnable| == RenderTargetCount && |d.writeMask| == RenderTargetCount
  }

  /** `DxvkBlendMode`. */
  datatype BlendMode = BlendMode(
    enableBlending: bool, colorSrcFactor: VkBlendFactor, colorDstFactor: VkBlendFactor, colorBlendOp: VkBlendOp,
    alphaSrcFactor: VkBlendFactor, alphaDstFactor: VkBlendFactor, alphaBlendOp: VkBlendOp, writeMask: nat)

  datatype MultisampleState = MultisampleState(sampleMask: nat, enableAlphaToCoverage: bool, enableAlphaToOne: bool)

  datatype VkLogicOp = LogicOpNoOp | LogicOpOther(code: nat)

  datatype LogicOpState = LogicOpState(enableLogicOp: bool, logicOp: VkLogicOp)

  /**
   * `DecodeBlendFactor`: total; the blend-factor constants become the
   * constant-alpha variants for alpha and the constant-colour variants for
   * colour, and any unlisted value becomes ZERO.
   */
  function DecodeBlendFactor(factor: nat, isAlpha: bool): (r: VkBlendFactor)
    ensures factor !in KnownBlendFactors ==> r == FactorZero
    ensures r == FactorZero <==> factor == BlendZero || factor !in KnownBlendFactors
    ensures (r.FactorConstantAlpha? || r.FactorOneMinusConstantAlpha?) <==> isAlpha && factor in {BlendBlendFactor, BlendInvBlendFactor}
    ensures (r.FactorConstantColor? || r.FactorOneMinusConstantColor?) <==> !isAlpha && factor in {BlendBlendFactor, BlendInvBlendFactor}
  {
    if factor == BlendZero then FactorZero
    else if factor == BlendOne then FactorOne
    else if factor == BlendSrcColor then FactorSrcColor
    else if factor == BlendInvSrcColor then FactorOneMinusSrcColor
    else if factor == BlendSrcAlpha then FactorSrcAlpha
    else if factor == BlendInvSrcAlpha then FactorOneMinusSrcAlpha
    else if factor == BlendDestAlpha then FactorDstAlpha
    else if factor == BlendInvDestAlpha then FactorOneMinusDstAlpha
    else if factor == BlendDestColor then FactorDstColor
    else if factor == BlendInvDestColor then FactorOneMinusDstColor
    else if factor == BlendSrcAlphaSat then FactorSrcAlphaSaturate
    else if factor == BlendBlendFactor then (if isAlpha then FactorConstantAlpha else FactorConstantColor)
    else if factor == BlendInvBlendFactor then (if isAlpha then FactorOneMinusConstantAlpha else FactorOneMinusConstantColor)
    else if factor == BlendSrc1Color then FactorSrc1Color
    else if factor == BlendInvSrc1Color then FactorOneMinusSrc1Color
    else if factor == BlendSrc1Alpha then FactorSrc1Alpha
    else if factor == BlendInvSrc1Alpha then FactorOneMinusSrc1Alpha
    else FactorZero
  }

  /** Distinct known factors decode to distinct Vulkan factors: no information is lost for valid input. */
  lemma DecodeBlendFactorInjective(a: nat, b: nat, isAlpha: bool)
    requires a in KnownBlendFactors && b in KnownBlendFactors
    requires DecodeBlendFactor(a, isAlpha) == DecodeBlendFactor(b, isAlpha)
    ensures a == b
  {
  }

  /** `DecodeBlendOp`: total; unknown ops become ADD. */
  function DecodeBlendOp(op: nat): (r: VkBlendOp)
    ensures r == OpAdd <==> op == BlendOpAdd || op !in {BlendOpAdd, BlendOpSubtract, BlendOpRevSubtract, BlendOpMin, BlendOpMax}
    ensures op in {BlendOpSubtract, BlendOpRevSubtract, BlendOpMin, BlendOpMax} ==> r != OpAdd
  {
    if op == BlendOpSubtract then OpSubtract
    else if op == BlendOpRevSubtract then OpReverseSubtract
    else if op == BlendOpMin then OpMin
    else if op == BlendOpMax then OpMax
    else OpAdd
  }

  /** `DecodeBlendMode`: colour factors decoded as colour, alpha factors as alpha; enable and mask copied. */
  function DecodeBlendMode(t: TargetBlendDesc): (r: BlendMode)
    ensures r.enableBlending == t.blendEnable && r.writeMask == t.writeMask
    ensures !r.colorSrcFactor.FactorConstantAlpha? && !r.colorDstFactor.FactorConstantAlpha?
    ensures !r.alphaSrcFactor.FactorConstantColor? && !r.alphaDstFactor.FactorConstantColor?
  {
    BlendMode(t.blendEnable,
              DecodeBlendFactor(t.srcBlend, false), DecodeBlendFactor(t.destBlend, false), DecodeBlendOp(t.blendOp),
              DecodeBlendFactor(t.srcBlendAlpha, true), DecodeBlendFactor(t.destBlendAlpha, true), DecodeBlendOp(t.blendOpAlpha),
              t.writeMask)
  }

  /**
   * The constructor's loop over the eight blend modes: target `i`'s own
   * descriptor with independent blending, target 0's otherwise, so that
   * without it every mode is the same.
   */
  method BlendModesFor(desc: BlendDesc1) returns (modes: seq<BlendMode>)
    requires WellFormed1(desc)
    ensures |modes| == RenderTargetCount
    ensures desc.independentBlend ==> forall i :: 0 <= i < RenderTargetCount ==> modes[i] == DecodeBlendMode(desc.renderTarget[i])
    ensures !desc.independentBlend ==> forall i :: 0 <= i < RenderTargetCount ==> modes[i] == DecodeBlendMode(desc.renderTarget[0])
    ensures !desc.independentBlend ==> forall i, j :: 0 <= i < j < RenderTargetCount ==> modes[i] == modes[j]
  {
    modes := [];
    var i := 0;
    while i < RenderTargetCount
      invariant 0 <= i <= RenderTargetCount && |modes| == i
      invariant forall k :: 0 <= k < i ==> modes[k] == DecodeBlendMode(if desc.independentBlend then desc.renderTarget[k] else desc.renderTarget[0])
    {
      modes := modes + [DecodeBlendMode(if desc.independentBlend then desc.renderTarget[i] else desc.renderTarget[0])];
      i := i + 1;
    }
  }

  /** What `BindToContext` sets on the context: the eight modes, the multisample state and the logic-op state. */
  datatype BlendBinding = BlendBinding(modes: seq<BlendMode>, ms: MultisampleState, lo: LogicOpState)

  /** A created blend state object. */
  class D3D10BlendState {
    const desc: BlendDesc1
    const blendModes: seq<BlendMode>
    const msState: MultisampleState
    const loState: LogicOpState

    constructor(desc: BlendDesc1)
      requires WellFormed1(desc)
      ensures this.desc == desc && |blendModes| == RenderTargetCount
      ensures forall i :: 0 <= i < RenderTargetCount ==>
        blendModes[i] == DecodeBlendMode(desc.renderTarget[if desc.independentBlend then i else 0])
      ensures msState == MultisampleState(0, desc.alphaToCoverage, false)
      ensures loState == LogicOpState(false, LogicOpNoOp)
    {
      this.desc := desc;
      var modes := BlendModesFor(desc);
      blendModes := modes;
      msState := MultisampleState(0, desc.alphaToCoverage, false);
      loState := LogicOpState(false, LogicOpNoOp);
    }

    /**
     * `BindToContext`: every stored mode, the caller's sample mask in place
     * of the stored one, alpha-to-one off and logic ops disabled.
     */
    function BindToContext(sampleMask: nat): (r: BlendBinding)
      ensures r.modes == blendModes
      ensures r.ms.sampleMask == sampleMask && r.ms.enableAlphaToCoverage == msState.enableAlphaToCoverage
      ensures r.lo == loState
    {
      BlendBinding(blendModes, msState.(sampleMask := sampleMask), loState)
    }
  }

  /** Whether two targets blend with the same factors and ops. */
  predicate SameFactors(a: TargetBlendDesc, b: TargetBlendDesc) {
    a.srcBlend == b.srcBlend && a.destBlend == b.destBlend && a.blendOp == b.blendOp
    && a.srcBlendAlpha == b.srcBlendAlpha && a.destBlendAlpha == b.destBlendAlpha && a.blendOpAlpha == b.blendOpAlpha
  }

  /**
   * The D3D10 view of a D3D10.1 descriptor, as `GetDesc` reports it: the
   * per-target enables and write masks, and target 0's factors and ops for
   * all targets. It reports every target exactly iff all targets share
   * target 0's factors and ops.
   */
  function GetDesc(d: BlendDesc1): (r: BlendDesc)
    requires WellFormed1(d)
    ensures WellFormed(r) && r.alphaToCoverage == d.alphaToCoverage
    ensures forall i :: 0 <= i < RenderTargetCount ==>
      r.blendEnable[i] == d.renderTarget[i].blendEnable && r.writeMask[i] == d.renderTarget[i].writeMask
    ensures PromotedTarget(r, 0) == d.renderTarget[0]
    ensures (forall i :: 0 <= i < RenderTargetCount ==> PromotedTarget(r, i) == d.renderTarget[i])
        <==> (forall i :: 0 <= i < RenderTargetCount ==> SameFactors(d.renderTarget[i], d.renderTarget[0]))
  {
    var rt := d.renderTarget;
    BlendDesc(d.alphaToCoverage,
              seq(RenderTargetCount, i requires 0 <= i < RenderTargetCount => rt[i].blendEnable),
              rt[0].srcBlend, rt[0].destBlend, rt[0].blendOp, rt[0].srcBlendAlpha, rt[0].destBlendAlpha, rt[0].blendOpAlpha,
              seq(RenderTargetCount, i requires 0 <= i < RenderTargetCount => rt[i].writeMask))
  }

  /** Target `i` of a promoted descriptor. */
  function PromotedTarget(d: BlendDesc, i: nat): TargetBlendDesc
    requires WellFormed(d) && i < RenderTargetCount
  {
    TargetBlendDesc(d.blendEnable[i], d.srcBlend, d.destBlend, d.blendOp,
                    d.srcBlendAlpha, d.destBlendAlpha, d.blendOpAlpha, d.writeMask[i])
  }

  /**
   * `PromoteDesc`: a D3D10 descriptor as a D3D10.1 one, without independent
   * blending, the shared factors and ops copied into every target; reading
   * it back with `GetDesc` gives the original descriptor.
   */
  method PromoteDesc(d: BlendDesc) returns (r: BlendDesc1)
    requires WellFormed(d)
    ensures WellFormed1(r) && !r.independentBlend && r.alphaToCoverage == d.alphaToCoverage
    ensures forall i :: 0 <= i < RenderTargetCount ==> r.renderTarget[i] == PromotedTarget(d, i)
    ensures GetDesc(r) == d
  {
    var targets: seq<TargetBlendDesc> := [];
    var i := 0;
    while i < RenderTargetCount
      invariant 0 <= i <= RenderTargetCount && |targets| == i
      invariant forall k :: 0 <= k < i ==> targets[k] == PromotedTarget(d, k)
    {
      targets := targets + [PromotedTarget(d, i)];
      i := i + 1;
    }
    r := BlendDesc1(d.alphaToCoverage, false, targets);
    var back := GetDesc(r);
    assert back.blendEnable == d.blendEnable;
    assert back.writeMask == d.writeMask;
  }

  const DefaultTarget := TargetBlendDesc(false, BlendOne, BlendZero, BlendOpAdd, BlendOne, BlendZero, BlendOpAdd, ColorWriteEnableAll)

  /** `DefaultDesc`: no alpha-to-coverage, no independent blending, every target ONE/ZERO/ADD with blending off and all channels written. */
  method DefaultDesc() returns (r: BlendDesc1)
    ensures WellFormed1(r) && !r.alphaToCoverage && !r.independentBlend
    ensures forall i :: 0 <= i < RenderTargetCount ==> r.renderTarget[i] == DefaultTarget
  {
    var targets: seq<TargetBlendDesc> := [];
    var i := 0;
    while i < RenderTargetCount
      invariant 0 <= i <= RenderTargetCount && |targets| == i
      invariant forall k :: 0 <= k < i ==> targets[k] == DefaultTarget
    {
      targets := targets + [DefaultTarget];
      i := i + 1;
    }
    r := BlendDesc1(false, false, targets);
  }

  /** The default target decodes to a pass-through mode: source colour replaces the target. */
  lemma DefaultTargetPassesThrough()
    ensures DecodeBlendMode(DefaultTarget) ==
      BlendMode(false, FactorOne, FactorZero, OpAdd, FactorOne, FactorZero, OpAdd, ColorWriteEnableAll)
  {
  }
}
