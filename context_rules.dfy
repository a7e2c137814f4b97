/**
 * The pure translation rules of the immediate context: the primitive
 * topology switch, the index type choice, the viewport Y-flip, the scissor
 * substitution and the slices bound for constant and vertex buffers.
 */
module ContextRules {
  import opened Common
  import opened BufferSlices
  import opened ContextState

  /** `D3D10_VIEWPORT_BOUNDS_MAX`, the extent used when the scissor test is off. */
  const ViewportBoundsMax: nat := 16383

  datatype VkTopology =
    | PointList | LineList | LineStrip | TriangleList | TriangleStrip
    | LineListAdjacency | LineStripAdjacency | TriangleListAdjacency | TriangleStripAdjacency

  /** `DxvkInputAssemblyState`: the Vulkan topology and whether primitive restart is on. */
  datatype InputAssembly = InputAssembly(topology: VkTopology, primitiveRestart: bool)

  predicate IsStrip(t: nat) {
    t == TopologyLineStrip || t == TopologyTriangleStrip || t == TopologyLineStripAdj || t == TopologyTriangleStripAdj
  }

  predicate IsKnownTopology(t: nat) {
    t == TopologyPointList || t == TopologyLineList || t == TopologyLineStrip
    || t == TopologyTriangleList || t == TopologyTriangleStrip || t == TopologyLineListAdj
    || t == TopologyLineStripAdj || t == TopologyTriangleListAdj || t == TopologyTriangleStripAdj
  }

  /**
   * The input-assembly state `ApplyPrimitiveTopology` emits, or `None` for
   * UNDEFINED, which emits nothing. An unknown value yields the
   * value-initialised state: point list without restart.
   */
  function InputAssemblyFor(t: nat): (r: Option<InputAssembly>)
    ensures r.None? <==> t == TopologyUndefined
    ensures r.Some? ==> (r.value.primitiveRestart <==> IsStrip(t))
    ensures r.Some? && !IsKnownTopology(t) ==> r.value == InputAssembly(PointList, false)
  {
    if t == TopologyUndefined then None
    else Some(
      if t == TopologyPointList then InputAssembly(PointList, false)
      else if t == TopologyLineList then InputAssembly(LineList, false)
      else if t == TopologyLineStrip then InputAssembly(LineStrip, true)
      else if t == TopologyTriangleList then InputAssembly(TriangleList, false)
      else if t == TopologyTriangleStrip then InputAssembly(TriangleStrip, true)
      else if t == TopologyLineListAdj then InputAssembly(LineListAdjacency, false)
      else if t == TopologyLineStripAdj then InputAssembly(LineStripAdjacency, true)
      else if t == TopologyTriangleListAdj then InputAssembly(TriangleListAdjacency, false)
      else if t == TopologyTriangleStripAdj then InputAssembly(TriangleStripAdjacency, true)
      else InputAssembly(PointList, false))
  }

  /** Distinct known topologies translate to distinct Vulkan topologies. */
  lemma InputAssemblyInjective(a: nat, b: nat)
    requires IsKnownTopology(a) && IsKnownTopology(b) && a != b
    ensures InputAssemblyFor(a).value.topology != InputAssemblyFor(b).value.topology
  {
  }

  datatype IndexType = Uint16 | Uint32

  /**
   * `BindIndexBuffer`'s index type: 16-bit exactly for a bound buffer in
   * R16_UINT; 32-bit otherwise, including unbound and invalid formats.
   */
  function IndexTypeFor(buffer: BufferRef, format: nat): (r: IndexType)
    ensures r == Uint16 <==> buffer.BufferRef? && format == FormatR16Uint
  {
    if buffer.NoBuffer? then Uint32
    else if format == FormatR16Uint then Uint16
    else Uint32
  }

  /** A `VkViewport` in integer terms: origin, signed extent and depth range. */
  datatype VkViewport = VkViewport(x: int, y: int, width: int, height: int, minDepth: real, maxDepth: real)

  /** A `VkRect2D`: signed offset, unsigned extent. */
  datatype VkRect = VkRect(x: int, y: int, width: nat, height: nat)

  /**
   * The flipped viewport exactly as `ApplyViewportState` computes it: the
   * origin moves to the bottom edge `Height + TopLeftY` and the height is
   * negated. The sum mixes a UINT and an INT, so C++ evaluates it in
   * unsigned 32-bit arithmetic before converting it to float.
   */
  function FlipViewportAsWritten(vp: Viewport): (r: VkViewport)
    ensures r.x == vp.topLeftX && r.width == vp.width && r.height == -(vp.height as int)
    ensures 0 <= r.y < TwoTo32
  {
    VkViewport(vp.topLeftX, U32(vp.height + vp.topLeftY), vp.width, -(vp.height as int), vp.minDepth, vp.maxDepth)
  }

  /**
   * The intended flip: the Vulkan viewport starts at the D3D10 bottom edge
   * and extends upwards by the height, so it covers the same rows.
   */
  function FlipViewport(vp: Viewport): (r: VkViewport)
    ensures r.y + r.height == vp.topLeftY
    ensures r.x == vp.topLeftX && r.width == vp.width && r.height == -(vp.height as int)
    ensures r.minDepth == vp.minDepth && r.maxDepth == vp.maxDepth
  {
    VkViewport(vp.topLeftX, vp.topLeftY + vp.height, vp.width, -(vp.height as int), vp.minDepth, vp.maxDepth)
  }

  /** Reading a flipped viewport back as a D3D10 viewport. */
  function UnflipViewport(v: VkViewport): (r: Viewport)
    requires v.height <= 0 && v.width >= 0
    ensures r.height == -v.height && r.topLeftY == v.y + v.height
  {
    Viewport(v.x, v.y + v.height, v.width, -v.height, v.minDepth, v.maxDepth)
  }

  /** The flip loses nothing: unflipping gives the application's viewport back. */
  lemma FlipRoundTrip(vp: Viewport)
    ensures UnflipViewport(FlipViewport(vp)) == vp
  {
  }

  /** The as-written flip agrees with the intended one whenever the bottom edge is not negative. */
  lemma FlipAsWrittenAgrees(vp: Viewport)
    requires 0 <= vp.topLeftY + vp.height < TwoTo32
    ensures FlipViewportAsWritten(vp) == FlipViewport(vp)
  {
  }

  /**
   * A viewport whose top edge lies above the render target's origin by more
   * than its height (legal in D3D10, whose viewport bounds go down to
   * -16384) is flipped to a y near 2^32 instead of a negative y.
   */
  lemma FlipAsWrittenWrapsNegativeBottom()
    ensures FlipViewportAsWritten(Viewport(0, -100, 64, 50, 0.0, 1.0)).y == 4294967246
    ensures FlipViewport(Viewport(0, -100, 64, 50, 0.0, 1.0)).y == -50
  {
  }

  /**
   * The scissor rectangle for viewport `i`: the application's rectangle when
   * the rasterizer enables the scissor test and one was set for `i`,
   * otherwise a rectangle covering the largest possible viewport. The extent
   * is the LONG difference converted to uint32_t.
   */
  function ScissorFor(enable: bool, i: nat, numScissors: nat, sr: Rect): (r: VkRect)
    ensures enable && i < numScissors && sr.left <= sr.right < sr.left + TwoTo32 && sr.top <= sr.bottom < sr.top + TwoTo32
      ==> r == VkRect(sr.left, sr.top, sr.right - sr.left, sr.bottom - sr.top)
    ensures !(enable && i < numScissors) ==> r == VkRect(0, 0, ViewportBoundsMax, ViewportBoundsMax)
  {
    if enable && i < numScissors then
      VkRect(sr.left, sr.top, U32(sr.right - sr.left), U32(sr.bottom - sr.top))
    else
      VkRect(0, 0, ViewportBoundsMax, ViewportBoundsMax)
  }

  predicate ScissorEnabled(rs: RsState) {
    rs.state.Rasterizer? && rs.state.scissorEnable
  }

  /** The viewports `ApplyViewportState` passes for the first `numViewports` slots. */
  function FlippedViewports(rs: RsState): (r: seq<VkViewport>)
    requires rs.numViewports <= |rs.viewports|
    ensures |r| == rs.numViewports
    ensures forall i :: 0 <= i < |r| ==> r[i].y + r[i].height == rs.viewports[i].topLeftY
    ensures forall i :: 0 <= i < |r| ==>
      r[i].height <= 0 && r[i].width >= 0 && UnflipViewport(r[i]) == rs.viewports[i]
  {
    seq(rs.numViewports, i requires 0 <= i < rs.numViewports => FlipViewport(rs.viewports[i]))
  }

  /** The scissor rectangles `ApplyViewportState` passes, one per viewport. */
  function ScissorRects(rs: RsState): (r: seq<VkRect>)
    requires rs.numViewports <= |rs.viewports| && rs.numViewports <= |rs.scissors|
    ensures |r| == rs.numViewports
    ensures forall i :: (0 <= i < |r| && !(ScissorEnabled(rs) && i < rs.numScissors)
      ==> r[i] == VkRect(0, 0, ViewportBoundsMax, ViewportBoundsMax))
    ensures forall i :: (0 <= i < |r| && ScissorEnabled(rs) && i < rs.numScissors
      ==> r[i] == VkRect(rs.scissors[i].left, rs.scissors[i].top,
                         U32(rs.scissors[i].right - rs.scissors[i].left), U32(rs.scissors[i].bottom - rs.scissors[i].top)))
  {
    seq(rs.numViewports, i requires 0 <= i < rs.numViewports =>
      ScissorFor(ScissorEnabled(rs), i, rs.numScissors, rs.scissors[i]))
  }

  /**
   * `BindConstantBuffer`'s slice: `constantCount` 16-byte constants from
   * constant `constantOffset`, both scaled in UINT arithmetic; nothing for
   * an empty slot.
   */
  function ConstantBufferSlice(b: CbBinding): (r: Slice)
    ensures b.buffer.NoBuffer? <==> r.EmptySlice?
    ensures b.buffer.BufferRef? && 16 * (b.constantOffset + b.constantCount) < TwoTo32
      ==> Covers(r, b.buffer, 16 * b.constantOffset, 16 * (b.constantOffset + b.constantCount))
  {
    if b.buffer.NoBuffer? then EmptySlice
    else SubSlice(b.buffer, U32(b.constantOffset * 16), U32(b.constantCount * 16))
  }

  /**
   * The slice `BindVertexBuffer` and `BindIndexBuffer` pass: from the
   * binding's offset to the end of a bound buffer, nothing for an unbound one.
   */
  function BufferSliceFrom(buffer: BufferRef, offset: nat): (r: Slice)
    ensures buffer.NoBuffer? <==> r.EmptySlice?
    ensures buffer.BufferRef? && offset <= buffer.size < TwoTo64 ==> Covers(r, buffer, offset, buffer.size)
  {
    if buffer.NoBuffer? then EmptySlice else SliceFrom(buffer, offset)
  }

  /** `BindVertexBuffer`'s stride: the application's stride, 0 when unbound. */
  function VertexBufferStride(b: VbBinding): (r: nat)
    ensures b.buffer.NoBuffer? ==> r == 0
    ensures b.buffer.BufferRef? ==> r == b.stride
  {
    if b.buffer.NoBuffer? then 0 else b.stride
  }


  /**
   * The binding `SetConstantBuffers` computes for the `i`-th buffer: an
   * explicit constant range only when the buffer is bound and both range
   * arrays are given; otherwise offset 0 and the whole buffer in 16-byte
   * constants; all zero for an empty slot.
   */
  function CbBindingFor(b: BufferRef, i: nat, firstConstant: Option<seq<nat>>, numConstants: Option<seq<nat>>): (r: CbBinding)
    requires firstConstant.Some? ==> i < |firstConstant.value|
    requires numConstants.Some? ==> i < |numConstants.value|
    ensures r.buffer == b
    ensures b.NoBuffer? ==> r == NullCbBinding
    ensures b.BufferRef? && (firstConstant.None? || numConstants.None?) ==> r.constantOffset == 0 && 16 * r.constantCount <= b.size < 16 * (r.constantCount + 1)
    ensures b.BufferRef? && firstConstant.Some? && numConstants.Some?
      ==> r.constantOffset == firstConstant.value[i] && r.constantCount == numConstants.value[i]
  {
    if b.NoBuffer? then NullCbBinding
    else if firstConstant.Some? && numConstants.Some? then CbBinding(b, firstConstant.value[i], numConstants.value[i])
    else CbBinding(b, 0, b.size / 16)
  }

  /** The bindings `SetConstantBuffers` computes for a run of buffers, one per buffer. */
  function CbBindings(buffers: seq<BufferRef>, firstConstant: Option<seq<nat>>, numConstants: Option<seq<nat>>): (r: seq<CbBinding>)
    requires firstConstant.Some? ==> |buffers| <= |firstConstant.value|
    requires numConstants.Some? ==> |buffers| <= |numConstants.value|
    ensures |r| == |buffers|
    ensures forall i :: 0 <= i < |r| ==> r[i] == CbBindingFor(buffers[i], i, firstConstant, numConstants)
  {
    seq(|buffers|, i requires 0 <= i < |buffers| => CbBindingFor(buffers[i], i, firstConstant, numConstants))
  }

  /** The bindings `IASetVertexBuffers` stores for a run of buffers, with their strides and offsets. */
  function VbBindings(buffers: seq<BufferRef>, strides: seq<nat>, offsets: seq<nat>): (r: seq<VbBinding>)
    requires |buffers| <= |strides| && |buffers| <= |offsets|
    ensures |r| == |buffers|
    ensures forall i :: 0 <= i < |r| ==> r[i] == VbBinding(buffers[i], offsets[i], strides[i])
  {
    seq(|buffers|, i requires 0 <= i < |buffers| => VbBinding(buffers[i], offsets[i], strides[i]))
  }
}
