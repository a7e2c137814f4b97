/**
 * `D3D10CommonTexture`: the decisions a texture makes when it is created
 * (image usage, map mode, tiling, layout and memory), subresource index
 * decoding, descriptor normalisation, and `Map`/`Unmap` with the mapped
 * subresource they keep.
 */
module Textures {
  import opened Common
  import C = Commands
  import opened Device
  import opened Flags
  import opened Buffers

  /** VkImageUsageFlagBits an image can carry here. */
  datatype ImageUsageBit =
    | ImageUsageTransferSrc | ImageUsageTransferDst | ImageUsageSampled | ImageUsageStorage
    | ImageUsageColorAttachment | ImageUsageDepthStencilAttachment

  const TransferUsage: set<ImageUsageBit> := {ImageUsageTransferSrc, ImageUsageTransferDst}
  const AttachmentUsage: set<ImageUsageBit> := {ImageUsageColorAttachment, ImageUsageDepthStencilAttachment}

  // VkImageAspectFlagBits.
  const AspectColor: nat := 1
  const AspectDepth: nat := 2
  const AspectStencil: nat := 4

  /** How `Map` reaches a texture's memory. */
  datatype MapMode = MapModeNone | MapModeBuffer | MapModeDirect

  datatype FormatMode = FormatModeColor | FormatModeDepth | FormatModeAny

  /** The three texture dimensions; each texture class passes its own. */
  datatype ImageType = Image1D | Image2D | Image3D

  datatype Tiling = TilingOptimal | TilingLinear

  datatype ImageLayout =
    | LayoutGeneral | LayoutColorAttachmentOptimal | LayoutDepthStencilAttachmentOptimal
    | LayoutDepthStencilReadOnlyOptimal | LayoutShaderReadOnlyOptimal

  datatype ImageCreateFlag = CreateMutableFormat | CreateCubeCompatible | Create2DArrayCompatible

  /** `D3D10_COMMON_TEXTURE_DESC`; `sampleCount` is `SampleDesc.Count`. */
  datatype TextureDesc = TextureDesc(
    width: nat, height: nat, depth: nat, mipLevels: nat, arraySize: nat, format: nat,
    sampleCount: nat, usage: Usage, bindFlags: bv32, cpuAccessFlags: bv32, miscFlags: bv32)

  datatype ImageCreateInfo = ImageCreateInfo(
    imageType: ImageType, format: nat, flags: set<ImageCreateFlag>, sampleCount: bv32,
    extent: C.Extent3, numLayers: nat, mipLevels: nat, usage: set<ImageUsageBit>,
    stages: set<PipelineStage>, access: set<AccessBit>, tiling: Tiling, layout: ImageLayout)

  /** What the adapter reports for one format, type, tiling and usage combination. */
  datatype FormatProperties = FormatProperties(maxExtent: C.Extent3, maxArrayLayers: nat, maxMipLevels: nat, sampleCounts: bv32)

  // ---- Descriptor rules -----------------------------------------------------

  /** Render targets take colour formats before depth-stencil ones. */
  function GetFormatMode(bindFlags: bv32): (m: FormatMode)
    ensures m == FormatModeColor <==> HasBit(bindFlags, BindRenderTarget)
    ensures m == FormatModeDepth <==> !HasBit(bindFlags, BindRenderTarget) && HasBit(bindFlags, BindDepthStencil)
    ensures m == FormatModeAny <==> !HasBit(bindFlags, BindRenderTarget) && !HasBit(bindFlags, BindDepthStencil)
  {
    if HasBit(bindFlags, BindRenderTarget) then FormatModeColor
    else if HasBit(bindFlags, BindDepthStencil) then FormatModeDepth
    else FormatModeAny
  }

  /** The largest mip count allowed: the full chain for single-sampled textures, one level otherwise. */
  function MaxMipLevels(sampleCount: nat, fullMipCount: nat): nat {
    if sampleCount <= 1 then fullMipCount else 1
  }

  /** A requested mip count, with 0 (unspecified) or one beyond `maxCount` replaced by `maxCount`. */
  function NormalizedMipLevels(requested: nat, maxCount: nat): (r: nat)
    ensures 1 <= requested <= maxCount ==> r == requested
    ensures requested == 0 || requested > maxCount ==> r == maxCount
    ensures 1 <= maxCount ==> 1 <= r <= maxCount
  {
    if requested == 0 || requested > maxCount then maxCount else requested
  }

  /** Normalising a normalised count changes nothing. */
  lemma NormalizedMipLevelsIdempotent(requested: nat, maxCount: nat)
    ensures NormalizedMipLevels(NormalizedMipLevels(requested, maxCount), maxCount) == NormalizedMipLevels(requested, maxCount)
  {
  }

  /**
   * `NormalizeTextureProperties`: an undecodable sample count is refused
   * and the descriptor left alone; otherwise only the mip count changes.
   * `fullMipCount` is the length of the full mip chain of the extent.
   */
  method NormalizeTextureProperties(desc: TextureDesc, sampleCountValid: bool, fullMipCount: nat) returns (hr: HResult, r: TextureDesc)
    ensures !sampleCountValid ==> hr == E_INVALIDARG && r == desc
    ensures sampleCountValid ==> (
      hr == S_OK && r == desc.(mipLevels := NormalizedMipLevels(desc.mipLevels, MaxMipLevels(desc.sampleCount, fullMipCount))))
    ensures sampleCountValid && desc.sampleCount > 1 ==> r.mipLevels == 1
  {
    r := desc;
    if !sampleCountValid {
      return E_INVALIDARG, r;
    }
    var maxMipLevelCount := if desc.sampleCount <= 1 then fullMipCount else 1;
    if desc.mipLevels == 0 || desc.mipLevels > maxMipLevelCount {
      r := r.(mipLevels := maxMipLevelCount);
    }
    hr := S_OK;
  }

  /** The image is within every limit `p` reports, with its sample count among the allowed ones. */
  predicate WithinLimits(info: ImageCreateInfo, p: FormatProperties) {
    info.extent.width <= p.maxExtent.width && info.extent.height <= p.maxExtent.height
    && info.extent.depth <= p.maxExtent.depth
    && info.numLayers <= p.maxArrayLayers && info.mipLevels <= p.maxMipLevels
    && info.sampleCount & p.sampleCounts != 0
  }

  /** `CheckImageSupport`: the properties query succeeded and the image is within its limits. */
  function CheckImageSupport(info: ImageCreateInfo, props: Option<FormatProperties>): (r: bool)
    ensures r <==> props.Some? && WithinLimits(info, props.value)
  {
    match props
    case None => false
    case Some(p) => WithinLimits(info, p)
  }

  /** Limits that allow at least as much keep an image supported. */
  lemma SupportIsMonotone(info: ImageCreateInfo, p: FormatProperties, q: FormatProperties)
    requires CheckImageSupport(info, Some(p))
    requires p.maxExtent.width <= q.maxExtent.width && p.maxExtent.height <= q.maxExtent.height && p.maxExtent.depth <= q.maxExtent.depth
    requires p.maxArrayLayers <= q.maxArrayLayers && p.maxMipLevels <= q.maxMipLevels
    requires p.sampleCounts & q.sampleCounts == p.sampleCounts
    ensures CheckImageSupport(info, Some(q))
  {
    assert info.sampleCount & p.sampleCounts & q.sampleCounts != 0;
  }

  /**
   * `DetermineMapMode`: no CPU access means no mapping; dynamic textures
   * go through a staging buffer; the rest are mapped directly when linear
   * tiling supports the image, and through a buffer otherwise.
   */
  function DetermineMapMode(desc: TextureDesc, linearSupported: bool): (m: MapMode)
    ensures m == MapModeNone <==> desc.cpuAccessFlags == 0
    ensures m == MapModeDirect <==> desc.cpuAccessFlags != 0 && desc.usage != UsageDynamic && linearSupported
    ensures m == MapModeBuffer <==> desc.cpuAccessFlags != 0 && (desc.usage == UsageDynamic || !linearSupported)
  {
    if desc.cpuAccessFlags == 0 then MapModeNone
    else if desc.usage == UsageDynamic then MapModeBuffer
    else if linearSupported then MapModeDirect
    else MapModeBuffer
  }

  /**
   * `OptimizeLayout`: transfer bits do not count; an image used only as a
   * colour or only as a depth-stencil attachment stays in that attachment
   * layout; one sampled and otherwise used only as attachments gets a
   * read-only layout, the depth-stencil one if it is a depth attachment;
   * anything else stays GENERAL.
   */
  function OptimizeLayout(usage: set<ImageUsageBit>): (r: ImageLayout)
    ensures r == LayoutColorAttachmentOptimal <==> usage - TransferUsage == {ImageUsageColorAttachment}
    ensures r == LayoutDepthStencilAttachmentOptimal <==> usage - TransferUsage == {ImageUsageDepthStencilAttachment}
    ensures r == LayoutShaderReadOnlyOptimal || r == LayoutDepthStencilReadOnlyOptimal <==>
      usage - TransferUsage - AttachmentUsage == {ImageUsageSampled}
    ensures r == LayoutDepthStencilReadOnlyOptimal ==> ImageUsageDepthStencilAttachment in usage
    ensures r == LayoutShaderReadOnlyOptimal ==> ImageUsageDepthStencilAttachment !in usage
  {
    var u := usage - TransferUsage;
    if u == {ImageUsageColorAttachment} then LayoutColorAttachmentOptimal
    else if u == {ImageUsageDepthStencilAttachment} then LayoutDepthStencilAttachmentOptimal
    else if u - AttachmentUsage == {ImageUsageSampled} then
      (if ImageUsageDepthStencilAttachment in usage then LayoutDepthStencilReadOnlyOptimal else LayoutShaderReadOnlyOptimal)
    else LayoutGeneral
  }

  /** Adding or removing transfer usage never changes the chosen layout. */
  lemma OptimizeLayoutIgnoresTransfer(usage: set<ImageUsageBit>)
    ensures OptimizeLayout(usage + TransferUsage) == OptimizeLayout(usage - TransferUsage)
  {
    assert usage + TransferUsage - TransferUsage == usage - TransferUsage - TransferUsage;
  }

  // ---- Subresource indices --------------------------------------------------

  /** The flat index of mip `mip` of layer `layer`, as the init path numbers subresources. */
  function SubresourceIndex(mip: nat, layer: nat, mipLevels: nat): nat {
    mip + layer * mipLevels
  }

  /** `GetSubresourceFromIndex`: the mip is the index modulo the mip count, the layer the quotient. */
  function GetSubresourceFromIndex(aspect: nat, index: nat, mipLevels: nat): (r: C.Subresource)
    requires mipLevels > 0
    ensures r.aspect == aspect && r.mipLevel < mipLevels
    ensures SubresourceIndex(r.mipLevel, r.arrayLayer, mipLevels) == index
  {
    C.Subresource(aspect, index % mipLevels, index / mipLevels)
  }

  /** Decoding inverts the flat numbering for every mip inside the chain. */
  lemma SubresourceRoundTrip(aspect: nat, mip: nat, layer: nat, mipLevels: nat)
    requires mip < mipLevels
    ensures GetSubresourceFromIndex(aspect, SubresourceIndex(mip, layer, mipLevels), mipLevels) == C.Subresource(aspect, mip, layer)
  {
    var r := GetSubresourceFromIndex(aspect, SubresourceIndex(mip, layer, mipLevels), mipLevels);
    DivModUnique(mip + layer * mipLevels, mipLevels, r.arrayLayer, r.mipLevel, layer, mip);
  }

  /** Quotient and remainder are unique. */
  lemma DivModUnique(x: nat, n: nat, q1: nat, r1: nat, q2: nat, r2: nat)
    requires 0 < n && r1 < n && r2 < n
    requires x == r1 + q1 * n && x == r2 + q2 * n
    ensures q1 == q2 && r1 == r2
  {
    if q1 < q2 {
      MulStep(q1, q2 - q1, n);
    } else if q2 < q1 {
      MulStep(q2, q1 - q2, n);
    }
  }

  /** A quotient larger by `k >= 1` adds at least one whole `n`. */
  lemma MulStep(q: nat, k: nat, n: nat)
    requires 1 <= k
    ensures (q + k) * n >= q * n + n
  {
    assert (q + k) * n == q * n + k * n;
    assert k * n >= n by {
      assert k * n == n + (k - 1) * n;
    }
  }

  /** The subresources an init upload numbers `0 .. layers*mips` all lie inside the texture. */
  lemma InitIndicesDecodeInside(aspect: nat, index: nat, layers: nat, mipLevels: nat)
    requires mipLevels > 0 && index < layers * mipLevels
    ensures GetSubresourceFromIndex(aspect, index, mipLevels).arrayLayer < layers
  {
    var r := GetSubresourceFromIndex(aspect, index, mipLevels);
    if r.arrayLayer >= layers {
      MulStep(layers, r.arrayLayer - layers + 1, mipLevels);
      assert false;
    }
  }

  // ---- Creation -------------------------------------------------------------

  /**
   * The image create info before the map mode is known: transfer usage,
   * optimal tiling and GENERAL layout, plus the usage, stage and access bits
   * of each bind flag, cube and 2D-array compatibility where they apply.
   * `format` is the Vulkan format looked up for the descriptor's format in
   * `GetFormatMode`'s mode; `decodedSamples` is the decoded sample count,
   * absent when it does not decode (the single-sample bit then stays).
   */
  method BaseImageInfo(desc: TextureDesc, imageType: ImageType, format: nat, decodedSamples: Option<bv32>, shaderStages: set<PipelineStage>)
    returns (info: ImageCreateInfo)
    requires shaderStages <= ShaderStages
    ensures info.imageType == imageType && info.format == format && info.tiling == TilingOptimal && info.layout == LayoutGeneral
    ensures info.extent == C.Extent3(desc.width, desc.height, desc.depth)
    ensures info.numLayers == desc.arraySize && info.mipLevels == desc.mipLevels
    ensures info.sampleCount == (if decodedSamples.Some? then decodedSamples.value else 1)
    ensures CreateMutableFormat in info.flags
    ensures CreateCubeCompatible in info.flags <==> HasBit(desc.miscFlags, MiscTextureCube)
    ensures Create2DArrayCompatible in info.flags <==> imageType == Image3D
    ensures TransferUsage <= info.usage && ImageUsageStorage !in info.usage
    ensures ImageUsageSampled in info.usage <==> HasBit(desc.bindFlags, BindShaderResource)
    ensures ImageUsageColorAttachment in info.usage <==> HasBit(desc.bindFlags, BindRenderTarget)
    ensures ImageUsageDepthStencilAttachment in info.usage <==> HasBit(desc.bindFlags, BindDepthStencil)
    ensures AccessShaderRead in info.access <==> HasBit(desc.bindFlags, BindShaderResource)
    ensures AccessColorAttachmentWrite in info.access <==> HasBit(desc.bindFlags, BindRenderTarget)
    ensures AccessDepthStencilAttachmentWrite in info.access <==> HasBit(desc.bindFlags, BindDepthStencil)
    ensures StageColorAttachmentOutput in info.stages <==> HasBit(desc.bindFlags, BindRenderTarget)
    ensures StageLateFragmentTests in info.stages <==> HasBit(desc.bindFlags, BindDepthStencil)
    ensures HasBit(desc.bindFlags, BindShaderResource) ==> shaderStages <= info.stages
    ensures StageHost !in info.stages && AccessHostRead !in info.access && AccessHostWrite !in info.access
  {
    var sampleCount: bv32 := 1;
    if decodedSamples.Some? {
      sampleCount := decodedSamples.value;
    }
    var usage, stages, access := ImageBindFlagBits(desc.bindFlags, shaderStages);
    var flags := ImageCreateFlags(desc.miscFlags, imageType);
    info := ImageCreateInfo(
      imageType, format, flags, sampleCount, C.Extent3(desc.width, desc.height, desc.depth),
      desc.arraySize, desc.mipLevels, usage, stages, access, TilingOptimal, LayoutGeneral);
  }

  /** Mutable format always; cube compatibility for cube maps; 2D-array compatibility for 3D images. */
  method ImageCreateFlags(miscFlags: bv32, imageType: ImageType) returns (flags: set<ImageCreateFlag>)
    ensures CreateMutableFormat in flags
    ensures CreateCubeCompatible in flags <==> HasBit(miscFlags, MiscTextureCube)
    ensures Create2DArrayCompatible in flags <==> imageType == Image3D
  {
    flags := {CreateMutableFormat};
    if HasBit(miscFlags, MiscTextureCube) {
      flags := flags + {CreateCubeCompatible};
    }
    if imageType == Image3D {
      flags := flags + {Create2DArrayCompatible};
    }
  }

  /** The transfer bits every image has, plus the usage, stage and access bits each bind flag adds. */
  method ImageBindFlagBits(bindFlags: bv32, shaderStages: set<PipelineStage>)
    returns (usage: set<ImageUsageBit>, stages: set<PipelineStage>, access: set<AccessBit>)
    requires shaderStages <= ShaderStages
    ensures TransferUsage <= usage && ImageUsageStorage !in usage
    ensures StageHost !in stages && AccessHostRead !in access && AccessHostWrite !in access
    ensures ImageUsageSampled in usage <==> HasBit(bindFlags, BindShaderResource)
    ensures ImageUsageColorAttachment in usage <==> HasBit(bindFlags, BindRenderTarget)
    ensures ImageUsageDepthStencilAttachment in usage <==> HasBit(bindFlags, BindDepthStencil)
    ensures AccessShaderRead in access <==> HasBit(bindFlags, BindShaderResource)
    ensures AccessColorAttachmentWrite in access <==> HasBit(bindFlags, BindRenderTarget)
    ensures AccessDepthStencilAttachmentWrite in access <==> HasBit(bindFlags, BindDepthStencil)
    ensures StageColorAttachmentOutput in stages <==> HasBit(bindFlags, BindRenderTarget)
    ensures StageLateFragmentTests in stages <==> HasBit(bindFlags, BindDepthStencil)
    ensures HasBit(bindFlags, BindShaderResource) ==> shaderStages <= stages
  {
    usage, stages, access := TransferUsage, {StageTransfer}, {AccessTransferRead, AccessTransferWrite};
    if HasBit(bindFlags, BindShaderResource) {
      usage := usage + {ImageUsageSampled};
      stages := stages + shaderStages;
      access := access + {AccessShaderRead};
    }
    if HasBit(bindFlags, BindRenderTarget) {
      usage := usage + {ImageUsageColorAttachment};
      stages := stages + {StageColorAttachmentOutput};
      access := access + {AccessColorAttachmentRead, AccessColorAttachmentWrite};
    }
    if HasBit(bindFlags, BindDepthStencil) {
      usage := usage + {ImageUsageDepthStencilAttachment};
      stages := stages + {StageEarlyFragmentTests, StageLateFragmentTests};
      access := access + {AccessDepthStencilAttachmentRead, AccessDepthStencilAttachmentWrite};
    }
  }

  /**
   * `CreateMappedBuffer`: a host-visible, coherent transfer buffer holding
   * every block of the top level, given the format's element size and the
   * extent in blocks.
   */
  function MappedBufferInfo(elementSize: nat, blockCount: C.Extent3): (r: (BufferCreateInfo, set<MemoryProperty>))
    ensures r.0.size == elementSize * blockCount.width * blockCount.height * blockCount.depth
    ensures r.0.usage == {UsageTransferSrc, UsageTransferDst} && r.0.stages == {StageTransfer}
    ensures r.0.access == {AccessTransferRead, AccessTransferWrite}
    ensures r.1 == {HostVisible, HostCoherent}
  {
    (BufferCreateInfo(elementSize * blockCount.width * blockCount.height * blockCount.depth,
                      {UsageTransferSrc, UsageTransferDst}, {StageTransfer}, {AccessTransferRead, AccessTransferWrite}),
     {HostVisible, HostCoherent})
  }

  /** Where a successful `Map` points the application. */
  datatype MapTarget = ImageMemory(image: nat, subresource: C.Subresource) | BufferMemory(buffer: nat, physicalSlice: nat)

  /** The mapped pointer and, except for 1D textures, the row pitch. */
  datatype MappedTexture = MappedTexture(target: MapTarget, rowPitch: Option<nat>)

  const UnmappedSubresource := C.Subresource(0, 0, 0)

  class D3D10CommonTexture {
    const desc: TextureDesc
    const imageInfo: ImageCreateInfo
    const mapMode: MapMode
    const memory: set<MemoryProperty>
    const image: nat
    /** The staging buffer, present exactly in BUFFER map mode. */
    const mappedBuffer: Option<nat>
    /** The aspect mask of the image's format. */
    const formatAspect: nat
    var mappedSubresource: C.Subresource
    /** The staging buffer's current physical slice and how many it has had. */
    var bufferSlice: nat
    var bufferSlicesAllocated: nat

    ghost predicate Valid()
      reads this
    {
      (mapMode == MapModeBuffer <==> mappedBuffer.Some?) && bufferSlice < bufferSlicesAllocated
    }

    /**
     * Finishes the create info of `base` once the map mode is known: a
     * directly mapped image gets linear tiling, the host stage and host
     * access matching its CPU access flags, and host-visible, coherent,
     * cached memory; every other image stays optimally tiled in
     * device-local memory with the layout `OptimizeLayout` picks. Only a
     * BUFFER-mode texture gets a staging buffer. `linearProps` is what the
     * adapter reports for `base` with linear tiling.
     */
    constructor (desc: TextureDesc, base: ImageCreateInfo, linearProps: Option<FormatProperties>, formatAspect: nat, image: nat, buffer: nat)
      requires base.tiling == TilingOptimal
      ensures Valid()
      ensures this.desc == desc && this.image == image && this.formatAspect == formatAspect
      ensures mapMode == DetermineMapMode(desc, CheckImageSupport(base, linearProps))
      ensures mapMode == MapModeDirect ==>
        imageInfo == base.(stages := base.stages + {StageHost}, tiling := TilingLinear,
                           access := base.access
                                     + (if HasBit(desc.cpuAccessFlags, CpuAccessWrite) then {AccessHostWrite} else {})
                                     + (if HasBit(desc.cpuAccessFlags, CpuAccessRead) then {AccessHostRead} else {}))
        && memory == {HostVisible, HostCoherent, HostCached}
      ensures mapMode != MapModeDirect ==> imageInfo == base.(layout := OptimizeLayout(base.usage)) && memory == {DeviceLocal}
      ensures mappedBuffer == (if mapMode == MapModeBuffer then Some(buffer) else None)
      ensures mappedSubresource == C.Subresource(AspectColor, 0, 0)
      ensures bufferSlice == 0 && bufferSlicesAllocated == 1
    {
      var info := base;
      var mode := DetermineMapMode(desc, CheckImageSupport(base, linearProps));
      if mode == MapModeDirect {
        info := info.(stages := info.stages + {StageHost}, tiling := TilingLinear);
        if HasBit(desc.cpuAccessFlags, CpuAccessWrite) {
          info := info.(access := info.access + {AccessHostWrite});
        }
        if HasBit(desc.cpuAccessFlags, CpuAccessRead) {
          info := info.(access := info.access + {AccessHostRead});
        }
      }
      if info.tiling == TilingOptimal {
        info := info.(layout := OptimizeLayout(info.usage));
      }
      this.desc := desc;
      imageInfo := info;
      mapMode := mode;
      memory := if mode == MapModeDirect then {HostVisible, HostCoherent, HostCached} else {DeviceLocal};
      this.image := image;
      mappedBuffer := if mode == MapModeBuffer then Some(buffer) else None;
      this.formatAspect := formatAspect;
      mappedSubresource := C.Subresource(AspectColor, 0, 0);
      bufferSlice := 0;
      bufferSlicesAllocated := 1;
    }

    function GetMappedSubresource(): (s: C.Subresource)
      reads this
      ensures s == mappedSubresource
    {
      mappedSubresource
    }

    method SetMappedSubresource(s: C.Subresource)
      modifies this`mappedSubresource
      ensures GetMappedSubresource() == s
    {
      mappedSubresource := s;
    }

    /** Marks the texture unmapped: the zero subresource, with no aspect. */
    method ClearMappedSubresource()
      modifies this`mappedSubresource
      ensures GetMappedSubresource() == UnmappedSubresource
    {
      mappedSubresource := C.Subresource(0, 0, 0);
    }

    /**
     * Maps subresource `index`. A texture without a map mode, or with a
     * format that is not colour-only, is refused. Otherwise the decoded
     * subresource becomes the mapped one. DIRECT mode waits for the image
     * and points into it, with the row pitch of its memory layout
     * (`imageRowPitch`). BUFFER mode either discards into a fresh slice of
     * the staging buffer, or, for STAGING textures, first copies the image
     * into it, then waits for it; the row pitch is the element size times
     * the level's width in blocks. A null `pMappedData` (`wantData` false)
     * gets S_OK with nothing written.
     */
    method Map(dev: D3D10Device, index: nat, mapType: MapType, mapFlags: bv32, wantData: bool,
               imageInUse: bool, bufferInUse: bool, imageRowPitch: nat, elementSize: nat, levelBlockWidth: nat)
      returns (hr: HResult, mapped: Option<MappedTexture>)
      requires Valid() && dev.Valid() && desc.mipLevels > 0
      modifies this`mappedSubresource, this`bufferSlice, this`bufferSlicesAllocated
      modifies dev`chunk, dev`dispatched, dev`csIsBusy, dev`drawCount, dev`resourceInitCommands, dev`initSubmissions
      ensures Valid() && dev.Valid()
      ensures mapMode == MapModeNone || formatAspect != AspectColor ==> (
        hr == E_INVALIDARG && mapped.None?
        && mappedSubresource == old(mappedSubresource) && dev.Commands() == old(dev.Commands()))
      ensures mapMode != MapModeNone && formatAspect == AspectColor ==>
        mappedSubresource == GetSubresourceFromIndex(formatAspect, index, desc.mipLevels)
      ensures mapMode == MapModeDirect && formatAspect == AspectColor ==> (
        dev.Commands() == old(dev.Commands()) + (if old(dev.csIsBusy) || old(dev.chunk) != [] then [C.SubmitCommandList] else [])
        && (hr == S_OK <==> !(imageInUse && HasBit(mapFlags, MapFlagDoNotWait) && dev.allowMapFlagNoWait))
        && (hr != S_OK ==> hr == DXGI_ERROR_WAS_STILL_DRAWING && mapped.None?)
        && (hr == S_OK && wantData ==>
              mapped == Some(MappedTexture(ImageMemory(image, mappedSubresource),
                                           if imageInfo.imageType == Image1D then None else Some(imageRowPitch)))))
      ensures mapMode == MapModeBuffer && formatAspect == AspectColor ==> (
        hr == S_OK
        && (wantData ==>
              mapped == Some(MappedTexture(BufferMemory(mappedBuffer.value, bufferSlice),
                                           if imageInfo.imageType == Image1D then None else Some(elementSize * levelBlockWidth))))
        && (mapType == MapWriteDiscard ==>
              bufferSlice == old(bufferSlicesAllocated) && bufferSlicesAllocated == old(bufferSlicesAllocated) + 1
              && dev.Commands() == old(dev.Commands()) + [C.InvalidateBuffer(mappedBuffer.value, bufferSlice)])
        && (mapType != MapWriteDiscard && desc.usage == UsageStaging ==>
              bufferSlice == old(bufferSlice)
              && dev.Commands() == old(dev.Commands()) + [C.CopyImageToBuffer(mappedBuffer.value, image, mappedSubresource), C.SubmitCommandList])
        && (mapType != MapWriteDiscard && desc.usage != UsageStaging ==>
              bufferSlice == old(bufferSlice)
              && dev.Commands() == old(dev.Commands()) + (if old(dev.csIsBusy) || old(dev.chunk) != [] then [C.SubmitCommandList] else [])))
      ensures mapped.Some? ==> hr == S_OK && wantData
    {
      if mapMode == MapModeNone || formatAspect != AspectColor {
        return E_INVALIDARG, None;
      }
      var subresource := GetSubresourceFromIndex(formatAspect, index, desc.mipLevels);
      SetMappedSubresource(subresource);
      var rowPitch: Option<nat>;
      var target: MapTarget;
      if mapMode == MapModeDirect {
        var ok := dev.WaitForResource(imageInUse, HasBit(mapFlags, MapFlagDoNotWait));
        if !ok {
          return DXGI_ERROR_WAS_STILL_DRAWING, None;
        }
        target := ImageMemory(image, subresource);
        rowPitch := Some(imageRowPitch);
      } else {
        PrepareStagingBuffer(dev, subresource, mapType, bufferInUse);
        target := BufferMemory(mappedBuffer.value, bufferSlice);
        rowPitch := Some(elementSize * levelBlockWidth);
      }
      if imageInfo.imageType == Image1D {
        rowPitch := None;
      }
      mapped := if wantData then Some(MappedTexture(target, rowPitch)) else None;
      hr := S_OK;
    }

    /**
     * `Map`'s BUFFER-mode step: a discard renames the staging buffer to a
     * fresh slice; any other map first copies the subresource into the
     * buffer for STAGING textures, then waits for the buffer.
     */
    method PrepareStagingBuffer(dev: D3D10Device, subresource: C.Subresource, mapType: MapType, bufferInUse: bool)
      requires Valid() && dev.Valid() && mapMode == MapModeBuffer
      modifies this`bufferSlice, this`bufferSlicesAllocated
      modifies dev`chunk, dev`dispatched, dev`csIsBusy, dev`drawCount, dev`resourceInitCommands, dev`initSubmissions
      ensures Valid() && dev.Valid()
      ensures mapType == MapWriteDiscard ==>
        bufferSlice == old(bufferSlicesAllocated) && bufferSlicesAllocated == old(bufferSlicesAllocated) + 1
        && dev.Commands() == old(dev.Commands()) + [C.InvalidateBuffer(mappedBuffer.value, bufferSlice)]
      ensures mapType != MapWriteDiscard && desc.usage == UsageStaging ==>
        bufferSlice == old(bufferSlice)
        && dev.Commands() == old(dev.Commands()) + [C.CopyImageToBuffer(mappedBuffer.value, image, subresource), C.SubmitCommandList]
      ensures mapType != MapWriteDiscard && desc.usage != UsageStaging ==>
        bufferSlice == old(bufferSlice)
        && dev.Commands() == old(dev.Commands()) + (if old(dev.csIsBusy) || old(dev.chunk) != [] then [C.SubmitCommandList] else [])
    {
      if mapType == MapWriteDiscard {
        bufferSlice := bufferSlicesAllocated;
        bufferSlicesAllocated := bufferSlicesAllocated + 1;
        dev.EmitCs(C.InvalidateBuffer(mappedBuffer.value, bufferSlice));
      } else {
        if desc.usage == UsageStaging {
          dev.EmitCs(C.CopyImageToBuffer(mappedBuffer.value, image, subresource));
        }
        var _ := dev.WaitForResource(bufferInUse, false);
      }
    }

    /**
     * Unmaps the texture: in BUFFER mode the staging buffer is copied back
     * into the subresource the last map selected; in every mode the mapped
     * subresource is cleared.
     */
    method Unmap(dev: D3D10Device)
      requires Valid() && dev.Valid()
      modifies this`mappedSubresource, dev`chunk, dev`dispatched, dev`csIsBusy
      ensures Valid() && dev.Valid()
      ensures mappedSubresource == UnmappedSubresource
      ensures mapMode == MapModeBuffer ==>
        dev.Commands() == old(dev.Commands()) + [C.CopyBufferToImage(image, old(mappedSubresource), mappedBuffer.value)]
      ensures mapMode != MapModeBuffer ==> dev.Commands() == old(dev.Commands())
    {
      if mapMode == MapModeBuffer {
        dev.EmitCs(C.CopyBufferToImage(image, mappedSubresource, mappedBuffer.value));
      }
      ClearMappedSubresource();
    }
  }

  /**
   * Creating a texture: the base create info, then the optimal-tiling
   * support check, which throws in the source (no texture here), then the
   * texture itself.
   */
  method CreateCommonTexture(desc: TextureDesc, imageType: ImageType, format: nat, decodedSamples: Option<bv32>,
                             shaderStages: set<PipelineStage>, optimalProps: Option<FormatProperties>,
                             linearProps: Option<FormatProperties>, formatAspect: nat, image: nat, buffer: nat)
    returns (base: ImageCreateInfo, t: D3D10CommonTexture?)
    requires shaderStages <= ShaderStages
    ensures t != null <==> CheckImageSupport(base, optimalProps)
    ensures t != null ==> (
      fresh(t) && t.Valid() && t.desc == desc
      && t.mapMode == DetermineMapMode(desc, CheckImageSupport(base, linearProps)))
    ensures base.extent == C.Extent3(desc.width, desc.height, desc.depth) && base.imageType == imageType
  {
    base := BaseImageInfo(desc, imageType, format, decodedSamples, shaderStages);
    if !CheckImageSupport(base, optimalProps) {
      return base, null;
    }
    t := new D3D10CommonTexture(desc, base, linearProps, formatAspect, image, buffer);
  }
}
