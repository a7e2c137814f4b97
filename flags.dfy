/**
 * Direct3D 10 descriptor flags and enumerations shared by buffers and
 * textures, and the Vulkan stage, access and memory bits their create
 * infos are built from.
 */
module Flags {

  // D3D10_BIND_FLAG bits.
  const BindVertexBuffer: bv32 := 0x1
  const BindIndexBuffer: bv32 := 0x2
  const BindConstantBuffer: bv32 := 0x4
  const BindShaderResource: bv32 := 0x8
  const BindStreamOutput: bv32 := 0x10
  const BindRenderTarget: bv32 := 0x20
  const BindDepthStencil: bv32 := 0x40

  // D3D10_CPU_ACCESS_FLAG bits.
  const CpuAccessWrite: bv32 := 0x1_0000
  const CpuAccessRead: bv32 := 0x2_0000

  /** D3D10_RESOURCE_MISC_TEXTURECUBE. */
  const MiscTextureCube: bv32 := 0x4

  /** D3D10_MAP_FLAG_DO_NOT_WAIT. */
  const MapFlagDoNotWait: bv32 := 0x10_0000

  datatype Usage = UsageDefault | UsageImmutable | UsageDynamic | UsageStaging

  datatype MapType = MapRead | MapWrite | MapReadWrite | MapWriteDiscard | MapWriteNoOverwrite

  /** Pipeline stages; the shader stages the device enables arrive as a set of their own. */
  datatype PipelineStage =
    | StageTransfer | StageVertexInput | StageHost
    | StageVertexShader | StageGeometryShader | StageFragmentShader
    | StageColorAttachmentOutput | StageEarlyFragmentTests | StageLateFragmentTests

  const ShaderStages: set<PipelineStage> := {StageVertexShader, StageGeometryShader, StageFragmentShader}

  datatype AccessBit =
    | AccessTransferRead | AccessTransferWrite | AccessVertexAttributeRead | AccessIndexRead
    | AccessUniformRead | AccessShaderRead | AccessHostWrite | AccessHostRead
    | AccessColorAttachmentRead | AccessColorAttachmentWrite
    | AccessDepthStencilAttachmentRead | AccessDepthStencilAttachmentWrite

  datatype MemoryProperty = HostVisible | HostCoherent | HostCached | DeviceLocal

  predicate HasBit(flags: bv32, bit: bv32) {
    flags & bit != 0
  }
}
