/**
 * `D3D10Buffer`: the Vulkan usage, stage and access bits derived from a
 * buffer descriptor, the memory it is placed in, `Map` with its three
 * map-type paths, and the buffer path of `UpdateSubresource`.
 */
module Buffers {
  import opened Common
  import opened BufferSlices
  import C = Commands
  import opened Device
  import opened Flags

  /** `D3D10_BUFFER_DESC`; `MiscFlags` is not read by the modelled code. */
  datatype BufferDesc = BufferDesc(byteWidth: nat, usage: Usage, bindFlags: bv32, cpuAccessFlags: bv32)

  datatype BufferUsageBit =
    | UsageTransferSrc | UsageTransferDst | UsageVertexBuffer | UsageIndexBuffer
    | UsageUniformBuffer | UsageUniformTexelBuffer

  datatype BufferCreateInfo = BufferCreateInfo(size: nat, usage: set<BufferUsageBit>, stages: set<PipelineStage>, access: set<AccessBit>)

  /**
   * `CreateBuffer`'s create info: transfer usage always, then for each bind
   * flag its own usage, stage and access bits, and the host stage with the
   * matching host access for CPU write and read access. Stream output adds
   * nothing.
   */
  method BufferCreateInfoFor(desc: BufferDesc, shaderStages: set<PipelineStage>) returns (info: BufferCreateInfo)
    requires shaderStages <= ShaderStages
    ensures info.size == desc.byteWidth
    ensures {UsageTransferSrc, UsageTransferDst} <= info.usage && StageTransfer in info.stages
    ensures {AccessTransferRead, AccessTransferWrite} <= info.access
    ensures UsageVertexBuffer in info.usage <==> HasBit(desc.bindFlags, BindVertexBuffer)
    ensures UsageIndexBuffer in info.usage <==> HasBit(desc.bindFlags, BindIndexBuffer)
    ensures UsageUniformBuffer in info.usage <==> HasBit(desc.bindFlags, BindConstantBuffer)
    ensures UsageUniformTexelBuffer in info.usage <==> HasBit(desc.bindFlags, BindShaderResource)
    ensures AccessVertexAttributeRead in info.access <==> HasBit(desc.bindFlags, BindVertexBuffer)
    ensures AccessIndexRead in info.access <==> HasBit(desc.bindFlags, BindIndexBuffer)
    ensures AccessUniformRead in info.access <==> HasBit(desc.bindFlags, BindConstantBuffer)
    ensures AccessShaderRead in info.access <==> HasBit(desc.bindFlags, BindShaderResource)
    ensures AccessHostWrite in info.access <==> HasBit(desc.cpuAccessFlags, CpuAccessWrite)
    ensures AccessHostRead in info.access <==> HasBit(desc.cpuAccessFlags, CpuAccessRead)
    ensures StageVertexInput in info.stages <==> HasBit(desc.bindFlags, BindVertexBuffer) || HasBit(desc.bindFlags, BindIndexBuffer)
    ensures StageHost in info.stages <==> HasBit(desc.cpuAccessFlags, CpuAccessWrite) || HasBit(desc.cpuAccessFlags, CpuAccessRead)
    ensures HasBit(desc.bindFlags, BindConstantBuffer) || HasBit(desc.bindFlags, BindShaderResource) ==> shaderStages <= info.stages
    ensures !HasBit(desc.bindFlags, BindConstantBuffer) && !HasBit(desc.bindFlags, BindShaderResource)
      ==> info.stages <= {StageTransfer, StageVertexInput, StageHost}
    ensures info.usage <= {UsageTransferSrc, UsageTransferDst, UsageVertexBuffer, UsageIndexBuffer, UsageUniformBuffer, UsageUniformTexelBuffer}
  {
    var usage, bindStages, bindAccess := BindFlagBits(desc.bindFlags, shaderStages);
    var hostStages, hostAccess := CpuAccessBits(desc.cpuAccessFlags);
    info := BufferCreateInfo(desc.byteWidth, {UsageTransferSrc, UsageTransferDst} + usage,
                             {StageTransfer} + bindStages + hostStages,
                             {AccessTransferRead, AccessTransferWrite} + bindAccess + hostAccess);
  }

  /** The usage, stage and access bits each bind flag of a buffer adds. */
  method BindFlagBits(bindFlags: bv32, shaderStages: set<PipelineStage>)
    returns (usage: set<BufferUsageBit>, stages: set<PipelineStage>, access: set<AccessBit>)
    requires shaderStages <= ShaderStages
    ensures UsageVertexBuffer in usage <==> HasBit(bindFlags, BindVertexBuffer)
    ensures UsageIndexBuffer in usage <==> HasBit(bindFlags, BindIndexBuffer)
    ensures UsageUniformBuffer in usage <==> HasBit(bindFlags, BindConstantBuffer)
    ensures UsageUniformTexelBuffer in usage <==> HasBit(bindFlags, BindShaderResource)
    ensures usage <= {UsageVertexBuffer, UsageIndexBuffer, UsageUniformBuffer, UsageUniformTexelBuffer}
    ensures AccessVertexAttributeRead in access <==> HasBit(bindFlags, BindVertexBuffer)
    ensures AccessIndexRead in access <==> HasBit(bindFlags, BindIndexBuffer)
    ensures AccessUniformRead in access <==> HasBit(bindFlags, BindConstantBuffer)
    ensures AccessShaderRead in access <==> HasBit(bindFlags, BindShaderResource)
    ensures access <= {AccessVertexAttributeRead, AccessIndexRead, AccessUniformRead, AccessShaderRead}
    ensures StageVertexInput in stages <==> HasBit(bindFlags, BindVertexBuffer) || HasBit(bindFlags, BindIndexBuffer)
    ensures HasBit(bindFlags, BindConstantBuffer) || HasBit(bindFlags, BindShaderResource) ==> shaderStages <= stages
    ensures !HasBit(bindFlags, BindConstantBuffer) && !HasBit(bindFlags, BindShaderResource) ==> stages <= {StageVertexInput}
    ensures stages <= shaderStages + {StageVertexInput}
  {
    usage, stages, access := {}, {}, {};
    if HasBit(bindFlags, BindVertexBuffer) {
      usage := usage + {UsageVertexBuffer};
      stages := stages + {StageVertexInput};
      access := access + {AccessVertexAttributeRead};
    }
    if HasBit(bindFlags, BindIndexBuffer) {
      usage := usage + {UsageIndexBuffer};
      stages := stages + {StageVertexInput};
      access := access + {AccessIndexRead};
    }
    if HasBit(bindFlags, BindConstantBuffer) {
      usage := usage + {UsageUniformBuffer};
      stages := stages + shaderStages;
      access := access + {AccessUniformRead};
    }
    if HasBit(bindFlags, BindShaderResource) {
      usage := usage + {UsageUniformTexelBuffer};
      stages := stages + shaderStages;
      access := access + {AccessShaderRead};
    }
  }

  /** The host stage and host access bits CPU access adds. */
  method CpuAccessBits(cpuAccessFlags: bv32) returns (stages: set<PipelineStage>, access: set<AccessBit>)
    ensures StageHost in stages <==> HasBit(cpuAccessFlags, CpuAccessWrite) || HasBit(cpuAccessFlags, CpuAccessRead)
    ensures stages <= {StageHost}
    ensures AccessHostWrite in access <==> HasBit(cpuAccessFlags, CpuAccessWrite)
    ensures AccessHostRead in access <==> HasBit(cpuAccessFlags, CpuAccessRead)
    ensures access <= {AccessHostWrite, AccessHostRead}
  {
    stages, access := {}, {};
    if HasBit(cpuAccessFlags, CpuAccessWrite) {
      stages := stages + {StageHost};
      access := access + {AccessHostWrite};
    }
    if HasBit(cpuAccessFlags, CpuAccessRead) {
      stages := stages + {StageHost};
      access := access + {AccessHostRead};
    }
  }

  /**
   * `GetMemoryFlags`: default-usage constant buffers live in host-visible,
   * coherent memory so `UpdateSubresource` can write them directly; every
   * other buffer gets the flags the backend recommends for its usage
   * (`forUsage`).
   */
  function GetMemoryFlags(desc: BufferDesc, forUsage: set<MemoryProperty>): (r: set<MemoryProperty>)
    ensures desc.usage == UsageDefault && HasBit(desc.bindFlags, BindConstantBuffer) ==> r == {HostVisible, HostCoherent}
    ensures !(desc.usage == UsageDefault && HasBit(desc.bindFlags, BindConstantBuffer)) ==> r == forUsage
  {
    if desc.usage == UsageDefault && HasBit(desc.bindFlags, BindConstantBuffer) then {HostVisible, HostCoherent}
    else forUsage
  }

  /** A default constant buffer can always be mapped, whatever the backend recommends. */
  lemma DefaultConstantBufferIsMappable(byteWidth: nat, bindFlags: bv32, cpuAccessFlags: bv32, forUsage: set<MemoryProperty>)
    requires HasBit(bindFlags, BindConstantBuffer)
    ensures HostVisible in GetMemoryFlags(BufferDesc(byteWidth, UsageDefault, bindFlags, cpuAccessFlags), forUsage)
  {
  }

  class D3D10Buffer {
    const desc: BufferDesc
    /** The buffer as bindings refer to it: identity, size and whether its memory is host-visible. */
    const buffer: BufferRef
    /** The physical slice the last map handed out (`D3D10BufferInfo::mappedSlice`). */
    var mappedSlice: nat
    /** Physical slices allocated so far; slice 0 is the one the buffer is created with. */
    var slicesAllocated: nat

    ghost predicate Valid()
      reads this
    {
      buffer.BufferRef? && buffer.size == desc.byteWidth && mappedSlice < slicesAllocated
    }

    /**
     * A buffer of `desc`, placed in memory with flags `memFlags`, with its
     * initial physical slice as the mapped slice.
     */
    constructor (id: nat, desc: BufferDesc, memFlags: set<MemoryProperty>)
      ensures Valid()
      ensures this.desc == desc && buffer == BufferRef(id, desc.byteWidth, HostVisible in memFlags)
      ensures mappedSlice == 0 && slicesAllocated == 1
    {
      this.desc := desc;
      buffer := BufferRef(id, desc.byteWidth, HostVisible in memFlags);
      mappedSlice := 0;
      slicesAllocated := 1;
    }

    /**
     * Maps the buffer. Device-local memory cannot be mapped. WRITE_DISCARD
     * takes a fresh physical slice, makes it the mapped slice and records
     * the invalidation without waiting; WRITE_NO_OVERWRITE reuses the
     * previously mapped slice without waiting; every other type waits for
     * the GPU and fails if it would have to wait under DO_NOT_WAIT. On
     * success the mapped slice is returned.
     */
    method Map(dev: D3D10Device, mapType: MapType, mapFlags: bv32, inUse: bool) returns (hr: HResult, data: Option<nat>)
      requires Valid() && dev.Valid()
      modifies this`mappedSlice, this`slicesAllocated
      modifies dev`chunk, dev`dispatched, dev`csIsBusy, dev`drawCount, dev`resourceInitCommands, dev`initSubmissions
      ensures Valid() && dev.Valid()
      ensures !buffer.hostVisible ==> (
        hr == E_INVALIDARG && data.None?
        && mappedSlice == old(mappedSlice) && slicesAllocated == old(slicesAllocated) && dev.Commands() == old(dev.Commands()))
      ensures buffer.hostVisible && mapType == MapWriteDiscard ==> (
        hr == S_OK
        && mappedSlice == old(slicesAllocated) && slicesAllocated == old(slicesAllocated) + 1 && data == Some(mappedSlice)
        && dev.Commands() == old(dev.Commands()) + [C.InvalidateBuffer(buffer.id, mappedSlice)])
      ensures buffer.hostVisible && mapType == MapWriteNoOverwrite ==> (
        hr == S_OK
        && mappedSlice == old(mappedSlice) && slicesAllocated == old(slicesAllocated) && data == Some(mappedSlice)
        && dev.Commands() == old(dev.Commands()))
      ensures buffer.hostVisible && mapType != MapWriteDiscard && mapType != MapWriteNoOverwrite ==>
        mappedSlice == old(mappedSlice) && slicesAllocated == old(slicesAllocated)
        && dev.Commands() == old(dev.Commands()) + (if old(dev.csIsBusy) || old(dev.chunk) != [] then [C.SubmitCommandList] else [])
        && (hr == S_OK <==> !(inUse && HasBit(mapFlags, MapFlagDoNotWait) && dev.allowMapFlagNoWait))
        && (hr == S_OK ==> data == Some(mappedSlice)) && (hr != S_OK ==> hr == DXGI_ERROR_WAS_STILL_DRAWING && data.None?)
    {
      if !buffer.hostVisible {
        return E_INVALIDARG, None;
      }
      if mapType == MapWriteDiscard {
        var physicalSlice := slicesAllocated;
        slicesAllocated := slicesAllocated + 1;
        mappedSlice := physicalSlice;
        dev.EmitCs(C.InvalidateBuffer(buffer.id, physicalSlice));
      } else if mapType != MapWriteNoOverwrite {
        var ok := dev.WaitForResource(inUse, HasBit(mapFlags, MapFlagDoNotWait));
        if !ok {
          return DXGI_ERROR_WAS_STILL_DRAWING, None;
        }
      }
      return S_OK, Some(mappedSlice);
    }

    /** Unmapping changes nothing. */
    method Unmap()
      requires Valid()
      ensures Valid()
    {
    }
  }

  /** Which of its paths the buffer branch of `UpdateSubresource` takes. */
  datatype UpdatePath = OutOfBounds | Empty | MapDiscard | UploadCopy

  /**
   * The destination range of a buffer update, `(offset, size)`: the whole
   * buffer without a box, otherwise `[left, right)` with the size computed
   * as a UINT difference.
   */
  function UpdateRange(byteWidth: nat, box: Option<(nat, nat)>): (r: (nat, nat))
    ensures box.None? ==> r == (0, byteWidth)
    ensures box.Some? && box.value.0 <= box.value.1 < TwoTo32 ==> r == (box.value.0, box.value.1 - box.value.0)
  {
    match box
    case None => (0, byteWidth)
    case Some((left, right)) => (left, U32(right - left))
  }

  /**
   * The path for a buffer of `byteWidth` bytes: a range past the end is
   * dropped, an empty one is a no-op, a write of the whole buffer to
   * host-visible memory goes through a discarding map, and anything else
   * through an upload copy.
   */
  function UpdatePathFor(byteWidth: nat, hostVisible: bool, box: Option<(nat, nat)>): (p: UpdatePath)
    ensures var (offset, size) := UpdateRange(byteWidth, box);
      (p == OutOfBounds <==> offset + size > byteWidth)
      && (p == Empty <==> offset + size <= byteWidth && size == 0)
      && (p == MapDiscard <==> offset + size <= byteWidth && 0 < size == byteWidth && hostVisible)
      && (p == MapDiscard ==> offset == 0)
  {
    var (offset, size) := UpdateRange(byteWidth, box);
    if offset + size > byteWidth then OutOfBounds
    else if size == 0 then Empty
    else if size == byteWidth && hostVisible then MapDiscard
    else UploadCopy
  }

  /** A box with `right < left` never writes: its wrapped size puts the range past the end of any buffer. */
  lemma InvertedBoxIsDropped(byteWidth: nat, hostVisible: bool, left: nat, right: nat)
    requires right < left < TwoTo32 && byteWidth < TwoTo32
    ensures UpdatePathFor(byteWidth, hostVisible, Some((left, right))) == OutOfBounds
  {
    assert UpdateRange(byteWidth, Some((left, right))).1 == right - left + TwoTo32;
  }

  /**
   * The buffer branch of `UpdateSubresource`: nothing for an out-of-range
   * or empty update; a discarding map of the buffer for a whole-buffer
   * write to host-visible memory (the map's result is not checked); else
   * `size` bytes of upload memory and one recorded buffer update of
   * exactly the destination range.
   */
  method UpdateBufferSubresource(dev: D3D10Device, buf: D3D10Buffer, box: Option<(nat, nat)>) returns (path: UpdatePath)
    requires dev.Valid() && buf.Valid()
    modifies buf`mappedSlice, buf`slicesAllocated
    modifies dev`chunk, dev`dispatched, dev`csIsBusy, dev`drawCount, dev`resourceInitCommands, dev`initSubmissions
    modifies dev`updateBuffer, dev`dataBuffersCreated
    ensures dev.Valid() && buf.Valid()
    ensures path == UpdatePathFor(buf.desc.byteWidth, buf.buffer.hostVisible, box)
    ensures path == OutOfBounds || path == Empty ==>
      dev.Commands() == old(dev.Commands()) && buf.mappedSlice == old(buf.mappedSlice) && dev.updateBuffer == old(dev.updateBuffer)
    ensures path == MapDiscard ==>
      dev.Commands() == old(dev.Commands()) + [C.InvalidateBuffer(buf.buffer.id, old(buf.slicesAllocated))]
      && buf.mappedSlice == old(buf.slicesAllocated)
    ensures path == UploadCopy ==>
      var (offset, size) := UpdateRange(buf.desc.byteWidth, box);
      dev.Commands() == old(dev.Commands()) + [C.UpdateBuffer(SubSlice(buf.buffer, offset, size))]
      && buf.mappedSlice == old(buf.mappedSlice)
  {
    path := UpdatePathFor(buf.desc.byteWidth, buf.buffer.hostVisible, box);
    var (offset, size) := UpdateRange(buf.desc.byteWidth, box);
    if offset + size > buf.desc.byteWidth {
      return;
    }
    if size == 0 {
      return;
    }
    if size == buf.desc.byteWidth && buf.buffer.hostVisible {
      var hr, data := buf.Map(dev, MapWriteDiscard, 0, false);
      buf.Unmap();
    } else {
      var dataSlice := dev.AllocUpdateBufferSlice(size);
      dev.EmitCs(C.UpdateBuffer(SubSlice(buf.buffer, offset, size)));
    }
  }
}
