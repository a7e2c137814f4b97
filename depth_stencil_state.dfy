/**
 * `D3D10DepthStencilState`: the Vulkan depth-stencil state a D3D10
 * depth-stencil descriptor decodes to, and the default descriptor.
 */
module DepthStencilState {

  // D3D10_COMPARISON_FUNC values.
  const ComparisonNever: nat := 1
  const ComparisonLess: nat := 2
  const ComparisonAlways: nat := 8

  // D3D10_DEPTH_WRITE_MASK values.
  const DepthWriteMaskZero: nat := 0
  const DepthWriteMaskAll: nat := 1

  // D3D10_STENCIL_OP values.
  const StencilOpKeep: nat := 1
  const StencilOpZero: nat := 2
  const StencilOpReplace: nat := 3
  const StencilOpIncrSat: nat := 4
  const StencilOpDecrSat: nat := 5
  const StencilOpInvert: nat := 6
  const StencilOpIncr: nat := 7
  const StencilOpDecr: nat := 8

  const DefaultStencilReadMask: nat := 0xff
  const DefaultStencilWriteMask: nat := 0xff

  datatype VkCompareOp = CompareNever | CompareLess | CompareEqual | CompareLessOrEqual
    | CompareGreater | CompareNotEqual | CompareGreaterOrEqual | CompareAlways

  datatype VkStencilOp = Keep | Zero | Replace | IncrementAndClamp | DecrementAndClamp | Invert | IncrementAndWrap | DecrementAndWrap

  /** `D3D10_DEPTH_STENCILOP_DESC`. */
  datatype StencilOpDesc = StencilOpDesc(stencilFailOp: nat, stencilDepthFailOp: nat, stencilPassOp: nat, stencilFunc: nat)

  /** `D3D10_DEPTH_STENCIL_DESC`. */
  datatype DepthStencilDesc = DepthStencilDesc(
    depthEnable: bool, depthWriteMask: nat, depthFunc: nat, stencilEnable: bool,
    stencilReadMask: nat, stencilWriteMask: nat, frontFace: StencilOpDesc, backFace: StencilOpDesc)

  /** `VkStencilOpState`. */
  datatype StencilOpState = StencilOpState(
    failOp: VkStencilOp, passOp: VkStencilOp, depthFailOp: VkStencilOp, compareOp: VkCompareOp,
    compareMask: nat, writeMask: nat, reference: nat)

  /** `DxvkDepthStencilState`; the depth-bounds range is left out. */
  datatype DecodedDepthStencil = DecodedDepthStencil(
    enableDepthTest: bool, enableDepthWrite: bool, enableDepthBounds: bool, enableStencilTest: bool,
    depthCompareOp: VkCompareOp, stencilOpFront: StencilOpState, stencilOpBack: StencilOpState)

  const KnownStencilOps: set<nat> := {
    StencilOpKeep, StencilOpZero, StencilOpReplace, StencilOpIncrSat,
    StencilOpDecrSat, StencilOpInvert, StencilOpIncr, StencilOpDecr}

  /** `DecodeStencilOp`: the eight D3D10 ops map one-to-one; any other value keeps the stencil. */
  function DecodeStencilOp(op: nat): (r: VkStencilOp)
    ensures op !in KnownStencilOps ==> r == Keep
    ensures r == Keep <==> op == StencilOpKeep || op !in KnownStencilOps
  {
    if op == StencilOpZero then Zero
    else if op == StencilOpReplace then Replace
    else if op == StencilOpIncrSat then IncrementAndClamp
    else if op == StencilOpDecrSat then DecrementAndClamp
    else if op == StencilOpInvert then Invert
    else if op == StencilOpIncr then IncrementAndWrap
    else if op == StencilOpDecr then DecrementAndWrap
    else Keep
  }

  /** Distinct D3D10 stencil ops decode to distinct Vulkan ops. */
  lemma DecodeStencilOpInjective(a: nat, b: nat)
    requires a in KnownStencilOps && b in KnownStencilOps && DecodeStencilOp(a) == DecodeStencilOp(b)
    ensures a == b
  {
  }

  /**
   * `DecodeStencilOpState` with the comparison decoder of the utility
   * module as a parameter: with stencil testing off the face keeps
   * everything and always passes; the masks come from the descriptor and
   * the reference is 0 either way.
   */
  function DecodeStencilOpState(face: StencilOpDesc, desc: DepthStencilDesc, decodeCompareOp: nat -> VkCompareOp): (r: StencilOpState)
    ensures r.compareMask == desc.stencilReadMask && r.writeMask == desc.stencilWriteMask && r.reference == 0
    ensures !desc.stencilEnable ==> r.failOp == Keep && r.passOp == Keep && r.depthFailOp == Keep && r.compareOp == CompareAlways
    ensures desc.stencilEnable ==> r.compareOp == decodeCompareOp(face.stencilFunc) && r.failOp == DecodeStencilOp(face.stencilFailOp)
                                   && r.passOp == DecodeStencilOp(face.stencilPassOp) && r.depthFailOp == DecodeStencilOp(face.stencilDepthFailOp)
  {
    if desc.stencilEnable then
      StencilOpState(DecodeStencilOp(face.stencilFailOp), DecodeStencilOp(face.stencilPassOp), DecodeStencilOp(face.stencilDepthFailOp),
                     decodeCompareOp(face.stencilFunc), desc.stencilReadMask, desc.stencilWriteMask, 0)
    else
      StencilOpState(Keep, Keep, Keep, CompareAlways, desc.stencilReadMask, desc.stencilWriteMask, 0)
  }

  /**
   * The constructor's decoding: depth test as enabled, depth writes iff
   * the write mask is ALL, no depth bounds, stencil test as enabled.
   */
  function Decode(desc: DepthStencilDesc, decodeCompareOp: nat -> VkCompareOp): (r: DecodedDepthStencil)
    ensures r.enableDepthTest == desc.depthEnable && r.enableStencilTest == desc.stencilEnable
    ensures r.enableDepthWrite <==> desc.depthWriteMask == DepthWriteMaskAll
    ensures !r.enableDepthBounds
    ensures r.depthCompareOp == decodeCompareOp(desc.depthFunc)
    ensures r.stencilOpFront == DecodeStencilOpState(desc.frontFace, desc, decodeCompareOp)
    ensures r.stencilOpBack == DecodeStencilOpState(desc.backFace, desc, decodeCompareOp)
    ensures r.stencilOpFront.reference == 0 && r.stencilOpBack.reference == 0
  {
    DecodedDepthStencil(desc.depthEnable, desc.depthWriteMask == DepthWriteMaskAll, false, desc.stencilEnable,
                        decodeCompareOp(desc.depthFunc),
                        DecodeStencilOpState(desc.frontFace, desc, decodeCompareOp),
                        DecodeStencilOpState(desc.backFace, desc, decodeCompareOp))
  }

  /** With stencil testing off the two faces decode alike, whatever the face descriptors say. */
  lemma DisabledStencilIgnoresFaces(desc: DepthStencilDesc, decodeCompareOp: nat -> VkCompareOp)
    requires !desc.stencilEnable
    ensures Decode(desc, decodeCompareOp).stencilOpFront == Decode(desc, decodeCompareOp).stencilOpBack
  {
  }

  const DefaultStencilOp := StencilOpDesc(StencilOpKeep, StencilOpKeep, StencilOpKeep, ComparisonAlways)

  /** `DefaultDesc`. */
  const DefaultDesc := DepthStencilDesc(true, DepthWriteMaskAll, ComparisonLess, false,
                                        DefaultStencilReadMask, DefaultStencilWriteMask, DefaultStencilOp, DefaultStencilOp)

  /**
   * The default descriptor decodes to depth test and write on, stencil off
   * with both faces keeping everything under ALWAYS and the default masks.
   */
  lemma DefaultDescDecodes(decodeCompareOp: nat -> VkCompareOp)
    ensures var r := Decode(DefaultDesc, decodeCompareOp);
      r.enableDepthTest && r.enableDepthWrite && !r.enableStencilTest
      && r.depthCompareOp == decodeCompareOp(ComparisonLess)
      && r.stencilOpFront == StencilOpState(Keep, Keep, Keep, CompareAlways, 0xff, 0xff, 0)
      && r.stencilOpBack == r.stencilOpFront
  {
  }
}
