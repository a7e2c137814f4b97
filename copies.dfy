/**
 * `CopySubresourceRegion` on the immediate context: which resource pairs
 * may be copied, the empty source boxes that make the call a no-op, and the
 * one buffer or image copy it records otherwise.
 */
module Copies {
  import opened Common
  import opened BufferSlices
  import C = Commands
  import opened Views
  import Textures
  import Device

  /** A `D3D10_BOX`; every field is a UINT. */
  datatype Box = Box(left: nat, top: nat, front: nat, right: nat, bottom: nat, back: nat)

  /**
   * A copy endpoint as the context sees it: the dimension `GetType`
   * reports, the buffer (for buffers), and the image, its mip count and the
   * aspect mask of its format (for textures).
   */
  datatype CopyResource = CopyResource(dimension: ResourceDimension, buffer: BufferRef, image: nat, mipLevels: nat, aspect: nat)

  /** What a resource of each dimension carries. */
  predicate WellFormedResource(r: CopyResource) {
    r.dimension != DimUnknown
    && (r.dimension == DimBuffer ==> r.buffer.BufferRef? && r.buffer.size < TwoTo32)
    && (r.dimension != DimBuffer ==> r.mipLevels > 0)
  }

  predicate WellFormedBox(b: Box) {
    b.left < TwoTo32 && b.top < TwoTo32 && b.front < TwoTo32
    && b.right < TwoTo32 && b.bottom < TwoTo32 && b.back < TwoTo32
  }

  /** Slices of a 2D texture may be copied into a 3D texture and back; otherwise the dimensions must match. */
  predicate CompatibleCopy(dst: ResourceDimension, src: ResourceDimension) {
    dst == src
    || (dst == DimTexture3D && src == DimTexture2D)
    || (dst == DimTexture2D && src == DimTexture3D)
  }

  /** `static_cast<int32_t>` of a UINT: values from 2^31 up wrap to negative. */
  function I32(x: nat): (r: int)
    requires x < TwoTo32
    ensures -0x8000_0000 <= r < 0x8000_0000
    ensures U32(r) == x
  {
    if x < 0x8000_0000 then x else x - TwoTo32
  }

  /** A texture box is empty when it is empty along any axis. */
  predicate EmptyImageBox(b: Box) {
    b.left >= b.right || b.top >= b.bottom || b.front >= b.back
  }

  /** The extent a non-empty texture box selects. */
  function BoxExtent(b: Box): C.Extent3
    requires !EmptyImageBox(b)
  {
    C.Extent3(b.right - b.left, b.bottom - b.top, b.back - b.front)
  }

  /**
   * The command `CopySubresourceRegion` records, or `None` when it records
   * nothing. `srcMipExtent` is the source image's extent at a mip level (a
   * backend query).
   */
  function CopyRegionCommand(
    dst: CopyResource, dstSubresource: nat, dstX: nat, dstY: nat, dstZ: nat,
    src: CopyResource, srcSubresource: nat, srcBox: Option<Box>, srcMipExtent: nat -> C.Extent3): (r: Option<C.Cmd>)
    requires WellFormedResource(dst) && WellFormedResource(src)
    requires dstX < TwoTo32 && dstY < TwoTo32 && dstZ < TwoTo32
    requires srcBox.Some? ==> WellFormedBox(srcBox.value)
    ensures !CompatibleCopy(dst.dimension, src.dimension) ==> r.None?
    ensures CompatibleCopy(dst.dimension, src.dimension) && dst.dimension == DimBuffer ==>
      (r.None? <==> srcBox.Some? && srcBox.value.left > srcBox.value.right)
      && (r.Some? ==>
            var (offset, length) := if srcBox.Some? then (srcBox.value.left, srcBox.value.right - srcBox.value.left) else (0, src.buffer.size);
            r.value.CopyBuffer?
            && Covers(r.value.dst, dst.buffer, dstX, dstX + length)
            && Covers(r.value.src, src.buffer, offset, offset + length))
    ensures CompatibleCopy(dst.dimension, src.dimension) && dst.dimension != DimBuffer ==>
      (r.None? <==> srcBox.Some? && EmptyImageBox(srcBox.value))
      && (r.Some? ==>
            r.value.CopyImage? && r.value.dstImage == dst.image && r.value.srcImage == src.image
            && r.value.dstSubresource.mipLevel < dst.mipLevels && r.value.srcSubresource.mipLevel < src.mipLevels
            && Textures.SubresourceIndex(r.value.dstSubresource.mipLevel, r.value.dstSubresource.arrayLayer, dst.mipLevels) == dstSubresource
            && Textures.SubresourceIndex(r.value.srcSubresource.mipLevel, r.value.srcSubresource.arrayLayer, src.mipLevels) == srcSubresource
            && r.value.dstOffset == C.Offset3(I32(dstX), I32(dstY), I32(dstZ))
            && (dst.dimension != src.dimension ==> r.value.extent.depth == 1)
            && (srcBox.Some? ==> r.value.srcOffset == C.Offset3(I32(srcBox.value.left), I32(srcBox.value.top), I32(srcBox.value.front))
                                 && r.value.extent.width == srcBox.value.right - srcBox.value.left > 0
                                 && r.value.extent.height == srcBox.value.bottom - srcBox.value.top > 0
                                 && (dst.dimension == src.dimension ==> r.value.extent.depth == srcBox.value.back - srcBox.value.front))
            && (srcBox.None? ==> r.value.srcOffset == C.Offset3(0, 0, 0)
                                 && r.value.extent.width == srcMipExtent(r.value.srcSubresource.mipLevel).width
                                 && r.value.extent.height == srcMipExtent(r.value.srcSubresource.mipLevel).height
                                 && (dst.dimension == src.dimension ==> r.value.extent.depth == srcMipExtent(r.value.srcSubresource.mipLevel).depth)))
  {
    if !CompatibleCopy(dst.dimension, src.dimension) then None
    else if dst.dimension == DimBuffer then
      if srcBox.Some? && srcBox.value.left > srcBox.value.right then None
      else
        var offset := if srcBox.Some? then srcBox.value.left else 0;
        var length := if srcBox.Some? then srcBox.value.right - srcBox.value.left else src.buffer.size;
        Some(C.CopyBuffer(SubSlice(dst.buffer, dstX, length), SubSlice(src.buffer, offset, length)))
    else
      var dstSub := Textures.GetSubresourceFromIndex(dst.aspect, dstSubresource, dst.mipLevels);
      var srcSub := Textures.GetSubresourceFromIndex(src.aspect, srcSubresource, src.mipLevels);
      if srcBox.Some? && EmptyImageBox(srcBox.value) then None
      else
        var srcOffset := if srcBox.Some? then C.Offset3(I32(srcBox.value.left), I32(srcBox.value.top), I32(srcBox.value.front))
                         else C.Offset3(0, 0, 0);
        var extent := if srcBox.Some? then BoxExtent(srcBox.value) else srcMipExtent(srcSub.mipLevel);
        var extent' := if dst.dimension != src.dimension then extent.(depth := 1) else extent;
        Some(C.CopyImage(dst.image, dstSub, C.Offset3(I32(dstX), I32(dstY), I32(dstZ)), src.image, srcSub, srcOffset, extent'))
  }

  /** A buffer box spanning the whole source buffer copies what no box copies. */
  lemma WholeBufferBoxIsNoBox(dst: CopyResource, dstX: nat, src: CopyResource, srcMipExtent: nat -> C.Extent3)
    requires WellFormedResource(dst) && WellFormedResource(src)
    requires dst.dimension == DimBuffer && src.dimension == DimBuffer && dstX < TwoTo32
    ensures CopyRegionCommand(dst, 0, dstX, 0, 0, src, 0, Some(Box(0, 0, 0, src.buffer.size, 1, 1)), srcMipExtent)
         == CopyRegionCommand(dst, 0, dstX, 0, 0, src, 0, None, srcMipExtent)
  {
  }

  /**
   * A texture box covering the whole source mip level copies what no box
   * copies, for textures of the same dimension.
   */
  lemma WholeImageBoxIsNoBox(
    dst: CopyResource, dstSubresource: nat, dstX: nat, dstY: nat, dstZ: nat,
    src: CopyResource, srcSubresource: nat, srcMipExtent: nat -> C.Extent3)
    requires WellFormedResource(dst) && WellFormedResource(src)
    requires dst.dimension == src.dimension != DimBuffer
    requires dstX < TwoTo32 && dstY < TwoTo32 && dstZ < TwoTo32
    requires var e := srcMipExtent(srcSubresource % src.mipLevels);
      0 < e.width < TwoTo32 && 0 < e.height < TwoTo32 && 0 < e.depth < TwoTo32
    ensures var e := srcMipExtent(srcSubresource % src.mipLevels);
      CopyRegionCommand(dst, dstSubresource, dstX, dstY, dstZ, src, srcSubresource, Some(Box(0, 0, 0, e.width, e.height, e.depth)), srcMipExtent)
      == CopyRegionCommand(dst, dstSubresource, dstX, dstY, dstZ, src, srcSubresource, None, srcMipExtent)
  {
  }

  /**
   * `CopySubresourceRegion`: records the command `CopyRegionCommand`
   * describes, if any, and changes no binding.
   */
  method CopySubresourceRegion(
    dev: Device.D3D10Device, dst: CopyResource, dstSubresource: nat, dstX: nat, dstY: nat, dstZ: nat,
    src: CopyResource, srcSubresource: nat, srcBox: Option<Box>, srcMipExtent: nat -> C.Extent3)
    requires dev.Valid() && WellFormedResource(dst) && WellFormedResource(src)
    requires dstX < TwoTo32 && dstY < TwoTo32 && dstZ < TwoTo32
    requires srcBox.Some? ==> WellFormedBox(srcBox.value)
    modifies dev`chunk, dev`dispatched, dev`csIsBusy
    ensures dev.Valid()
    ensures var r := CopyRegionCommand(dst, dstSubresource, dstX, dstY, dstZ, src, srcSubresource, srcBox, srcMipExtent);
      dev.Commands() == old(dev.Commands()) + (if r.Some? then [r.value] else [])
  {
    var r := CopyRegionCommand(dst, dstSubresource, dstX, dstY, dstZ, src, srcSubresource, srcBox, srcMipExtent);
    if r.Some? {
      dev.EmitCs(r.value);
    }
  }
}
