/**
 * `D3D10RasterizerState`: the Vulkan rasterizer state a D3D10 rasterizer
 * descriptor decodes to, and the default descriptor.
 */
module RasterizerState {

  // D3D10_FILL_MODE values.
  const FillWireframe: nat := 2
  const FillSolid: nat := 3

  // D3D10_CULL_MODE values.
  const CullNone: nat := 1
  const CullFront: nat := 2
  const CullBack: nat := 3

  datatype PolygonMode = PolygonFill | PolygonLine
  datatype CullMode = CullModeNone | CullModeFront | CullModeBack
  datatype FrontFace = FrontFaceClockwise | FrontFaceCounterClockwise

  /** `D3D10_RASTERIZER_DESC`; the floating-point bias fields are left out. */
  datatype RasterizerDesc = RasterizerDesc(
    fillMode: nat, cullMode: nat, frontCounterClockwise: bool, depthBias: int,
    depthClipEnable: bool, scissorEnable: bool, multisampleEnable: bool, antialiasedLineEnable: bool)

  /** `DxvkRasterizerState`. */
  datatype DecodedRasterizer = DecodedRasterizer(
    enableDiscard: bool, polygonMode: PolygonMode, cullMode: CullMode, frontFace: FrontFace,
    depthBiasEnable: bool, depthBiasConstant: int, enableDepthClamp: bool)

  /** Fill mode: WIREFRAME draws lines; SOLID and every unknown value fill. */
  function DecodeFillMode(fillMode: nat): (r: PolygonMode)
    ensures r == PolygonLine <==> fillMode == FillWireframe
  {
    if fillMode == FillWireframe then PolygonLine else PolygonFill
  }

  /** Cull mode: NONE, FRONT and BACK map to their Vulkan modes; unknown values cull nothing. */
  function DecodeCullMode(cullMode: nat): (r: CullMode)
    ensures r == CullModeFront <==> cullMode == CullFront
    ensures r == CullModeBack <==> cullMode == CullBack
    ensures cullMode !in {CullFront, CullBack} ==> r == CullModeNone
  {
    if cullMode == CullFront then CullModeFront
    else if cullMode == CullBack then CullModeBack
    else CullModeNone
  }

  /**
   * The constructor's decoding: discard off, depth bias always enabled,
   * depth clamping exactly when depth clipping is off, counter-clockwise
   * front faces as requested.
   */
  function Decode(desc: RasterizerDesc): (r: DecodedRasterizer)
    ensures !r.enableDiscard && r.depthBiasEnable && r.depthBiasConstant == desc.depthBias
    ensures r.enableDepthClamp <==> !desc.depthClipEnable
    ensures r.frontFace == FrontFaceCounterClockwise <==> desc.frontCounterClockwise
    ensures r.polygonMode == DecodeFillMode(desc.fillMode) && r.cullMode == DecodeCullMode(desc.cullMode)
  {
    DecodedRasterizer(false, DecodeFillMode(desc.fillMode), DecodeCullMode(desc.cullMode),
                      if desc.frontCounterClockwise then FrontFaceCounterClockwise else FrontFaceClockwise,
                      true, desc.depthBias, !desc.depthClipEnable)
  }

  /** `DefaultDesc`. */
  const DefaultDesc := RasterizerDesc(FillSolid, CullBack, false, 0, true, false, false, false)

  /** The default descriptor fills, culls back faces, treats clockwise as front and clamps no depth. */
  lemma DefaultDescDecodes()
    ensures Decode(DefaultDesc) == DecodedRasterizer(false, PolygonFill, CullModeBack, FrontFaceClockwise, true, 0, false)
  {
  }
}
