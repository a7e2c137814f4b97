# D3D10 on Vulkan: the immediate-context front end, as a Dafny model

This project models the D3D10 front end of DXVK (`src/d3d10_1/`) and a few
small algorithms next to it. It states and proves properties of each part.

- **Immediate context.** `D3D10Device` is a class holding:
  - the binding snapshot `D3D10ContextState`;
  - the open command chunk and the chunks already handed to the worker;
  - the draw counter behind the flush heuristic;
  - the busy flag and the resource-init command counter;
  - the shared upload buffer.

  Every `EmitCs` closure becomes one `Commands.Cmd` value. `Commands()` is
  every command recorded so far, in order, and each operation's contract
  states how it extends that sequence.
- **Resources and views.**
  - Buffer and texture creation decisions.
  - Map/Unmap.
  - The buffer `UpdateSubresource` paths and `CopySubresourceRegion`.
  - Render-target and depth-stencil view descriptors and view ranges.
  - Input-layout construction.
  - Device features and resource-init batching.
- **Immutable state objects.** Blend, depth-stencil, rasterizer and sampler
  decoding, and the descriptor-keyed object cache.
- **Queries.** Type mapping, data sizes and `GetData`.
- **The D3D9 state block.** What each `Set*` records, and the capture masks
  chosen by `CaptureType`.
- **DXGI display modes.** The Win32 and SDL2 `GetDisplayModeList1`: filter,
  sort, bounded copy-out. Also the SDL2 monitor name.
- **Linux string conversion.** `str::fromws` and `str::tows`.

Inputs the front end takes from code outside this model are parameters:
- the Vulkan backend's answers (format properties, whether a resource is in
  use, mip extents);
- the operating system's display-mode enumeration;
- helpers whose bodies are elsewhere (`LookupFormat`, `imageFormatInfo`,
  `DecodeCompareOp`, `GetMemoryFlagsForUsage`, ...).

Integers are unbounded. UINT arithmetic is written out with `U32` where the
source's wrap-around matters.

## Model

| member | source | states |
|---|---|---|
| Device.D3D10Device.constructor | src/d3d10_1/d3d10_1_device.cpp:79-122 | A new device has the default snapshot, no draws and an idle worker. Its one command, begin-recording, sits in a freshly allocated chunk. The no-wait option holds iff the executable's option set contains it. |
| Device.D3D10Device.EmitCs | src/d3d10_1/d3d10_1_device.h:349-357 | The command is appended exactly once and order is kept. A chunk with room takes it. A full chunk is dispatched whole and a fresh chunk holds just the command. |
| Device.D3D10Device.FlushCsChunk | src/d3d10_1/d3d10_1_device.h:359-364 | An empty chunk is left alone. Otherwise the chunk is dispatched and a fresh empty one opened; the recorded command sequence is unchanged. |
| Device.D3D10Device.EmitCsChunk | src/d3d10_1/d3d10_1_context.cpp:1860-1863 | The chunk is appended to the dispatched chunks and the busy flag is always set. |
| Commands.Flatten | src/d3d10_1/d3d10_1_device.h:349-364 | Helper: the commands of the dispatched chunks in dispatch order; no chunks hold no commands. |
| Commands.FlattenPush | src/d3d10_1/d3d10_1_device.h:349-364 | Helper: dispatching one more chunk appends exactly its commands. |
| Commands.AppendAssoc | src/d3d10_1/d3d10_1_context.cpp:1688-1729 | Helper: regrouping runs of recorded commands changes nothing, as the restore steps need. |
| Device.D3D10Device.SynchronizeCsThread | src/d3d10_1/d3d10_1_context.cpp:1826-1832 | The open chunk is flushed, leaving it empty, and no command is added. |
| Device.D3D10Device.Flush | src/d3d10_1/d3d10_1_context.cpp:1788-1809 | Pending init commands are submitted first. If the worker was busy or the chunk non-empty, one submit command is recorded, everything is dispatched, and the draw counter and busy flag are cleared. Otherwise nothing changes. |
| Device.D3D10Device.SubmitAndDispatch | src/d3d10_1/d3d10_1_context.cpp:1791-1803 | Records the submit command, then leaves every recorded command dispatched and the chunk empty. |
| Device.D3D10Device.WaitForResource | src/d3d10_1/d3d10_1_context.cpp:1834-1858 | Returns false iff the resource is in use, DO_NOT_WAIT was given and the application allows it. Every other case first flushes everything recorded. |
| Device.D3D10Device.AllocUpdateBufferSlice | src/d3d10_1/d3d10_1_context.cpp:1765-1784 | The slice has the requested length. A request of 4 MiB or more gets a buffer of its own and leaves the shared buffer alone. Smaller ones are carved from the shared buffer. When they do not fit, the buffer is replaced by one of the full 4 MiB; this is the corrected allocation of Finding (f). |
| Device.AllocShared | src/d3d10_1/d3d10_1_context.cpp:1771-1783 | A request that fits is carved from the current buffer right after what is used. Otherwise it starts a new buffer. Usage never exceeds capacity. |
| Device.SharedBufferReused | src/d3d10_1/d3d10_1_context.cpp:1771-1783 | With a full-size shared buffer, two small requests share one buffer and lie back to back. |
| Device.AllocSharedAsWritten | src/d3d10_1/d3d10_1_context.cpp:1771-1783 | As written, the slice has the requested length in the buffer it names. |
| Device.SharedBufferNeverReusedAsWritten | src/d3d10_1/d3d10_1_context.cpp:1773-1779 | As written, the shared buffer is created exactly as large as the first request, so a second request always creates another buffer. |
| Device.PushThroughSlot | src/d3d10_1/d3d10_1_device.h:349-357 | Pushing into a chunk slot fails exactly when the slot holds no chunk. |
| Device.ConstructorDereferencesNullChunk | src/d3d10_1/d3d10_1_device.cpp:100-102 | The constructor as written records into a chunk that was never allocated. An allocated empty chunk takes the command. |
| Device.D3D10Device.RecordDraw | src/d3d10_1/d3d10_1_context.cpp:674-735 | A draw records exactly its command and adds 1 (mod 2^32) to the draw counter. |
| Device.D3D10Device.Draw | src/d3d10_1/d3d10_1_context.cpp:674-684 | Records one non-indexed draw of one instance and counts it. |
| Device.D3D10Device.DrawIndexed | src/d3d10_1/d3d10_1_context.cpp:687-699 | Records one indexed draw of one instance and counts it. |
| Device.D3D10Device.DrawInstanced | src/d3d10_1/d3d10_1_context.cpp:702-716 | Records one instanced draw with the given counts and counts it. |
| Device.D3D10Device.DrawIndexedInstanced | src/d3d10_1/d3d10_1_context.cpp:719-735 | Records one indexed instanced draw with the given counts and counts it. |
| Device.D3D10Device.ApplyInputLayout | src/d3d10_1/d3d10_1_context.cpp:1299-1309 | Records the bound input layout, null included. |
| Device.D3D10Device.ApplyPrimitiveTopology | src/d3d10_1/d3d10_1_context.cpp:1312-1355 | Records nothing for an undefined topology. Otherwise records the input-assembly state of the topology. |
| Device.D3D10Device.ApplyBlendState | src/d3d10_1/d3d10_1_context.cpp:1358-1367 | Records the bound blend state (the default one for null) with the stored sample mask. |
| Device.D3D10Device.ApplyBlendFactor | src/d3d10_1/d3d10_1_context.cpp:1370-1378 | Records the stored blend factor. |
| Device.D3D10Device.ApplyDepthStencilState | src/d3d10_1/d3d10_1_context.cpp:1381-1389 | Records the bound depth-stencil state. |
| Device.D3D10Device.ApplyStencilRef | src/d3d10_1/d3d10_1_context.cpp:1392-1398 | Records the stored stencil reference. |
| Device.D3D10Device.ApplyRasterizerState | src/d3d10_1/d3d10_1_context.cpp:1401-1409 | Records the bound rasterizer state. |
| Device.D3D10Device.ApplyViewportState | src/d3d10_1/d3d10_1_context.cpp:1412-1476 | Records nothing without viewports. Otherwise records one command carrying every flipped viewport and its scissor rectangle. The flip is the corrected one of Finding (d). |
| Device.D3D10Device.BindFramebuffer | src/d3d10_1/d3d10_1_context.cpp:1479-1507 | Records the bound render targets and depth-stencil view. The CS thread is busy afterwards exactly when it was before or the recorded chunk was full and got dispatched. |
| Device.D3D10Device.BindShader | src/d3d10_1/d3d10_1_device.h:408-418 | Records exactly one shader bind for the stage; null binds no shader. |
| Device.D3D10Device.BindVertexBuffer | src/d3d10_1/d3d10_1_context.cpp:1510-1522 | Records one vertex-buffer bind for the slot. A null buffer binds an empty slice with stride 0. |
| Device.D3D10Device.BindIndexBuffer | src/d3d10_1/d3d10_1_context.cpp:1525-1547 | Records one index-buffer bind. The slice is empty iff the buffer is null, and the type is 16-bit iff the format is R16_UINT. |
| Device.D3D10Device.BindConstantBuffer | src/d3d10_1/d3d10_1_context.cpp:1550-1563 | Records one constant-buffer bind for the stage and slot. |
| Device.D3D10Device.BindSampler | src/d3d10_1/d3d10_1_context.cpp:1566-1575 | Records one sampler bind for the stage and slot. |
| Device.D3D10Device.BindShaderResource | src/d3d10_1/d3d10_1_context.cpp:1578-1588 | Records one shader-resource bind for the stage and slot. |
| Device.D3D10Device.IASetInputLayout | src/d3d10_1/d3d10_1_context.cpp:737-744 | Stores the layout. Records it only when it differs from the stored one. |
| Device.D3D10Device.IASetPrimitiveTopology | src/d3d10_1/d3d10_1_context.cpp:747-752 | Stores the topology. Applies it only when it changed. |
| Device.D3D10Device.IASetVertexBuffers | src/d3d10_1/d3d10_1_context.cpp:755-770 | Stores every given slot and records a bind for each, in slot order, with no change check. Other slots are untouched. |
| Device.D3D10Device.SetVertexBufferSlot | src/d3d10_1/d3d10_1_context.cpp:761-769 | One iteration of the vertex-buffer loop, a helper of IASetVertexBuffers. Slot `start + i` is stored, and its bind is recorded after those of the earlier slots. |
| Device.D3D10Device.IASetIndexBuffer | src/d3d10_1/d3d10_1_context.cpp:773-784 | Stores buffer, offset and format, and records the bind unconditionally. |
| Device.D3D10Device.SetShader | src/d3d10_1/d3d10_1_context.cpp:831-839 | Stores the stage's shader, and binds it only when it changed. The same holds for GSSetShader (915-923) and PSSetShader (998-1006). |
| Device.D3D10Device.WriteSlots | src/d3d10_1/d3d10_1_context.cpp:1590-1667 | The slots become the old ones with the range overwritten. Exactly one bind is recorded per slot whose value changed, in slot order. |
| Device.D3D10Device.WriteSlot | src/d3d10_1/d3d10_1_context.cpp:1601-1625 | One iteration of a slot setter's loop, a helper of WriteSlots. The slot is stored, and a bind is recorded only when its value changed, so the recorded binds stay those of ChangedBinds. |
| Device.D3D10Device.SetConstantBuffers | src/d3d10_1/d3d10_1_context.cpp:1590-1625 | Writes the stage's constant-buffer range. Binds only changed slots. A buffer without explicit range binds offset 0 and count size/16. A null buffer binds count 0. |
| Device.D3D10Device.SetSamplers | src/d3d10_1/d3d10_1_context.cpp:1628-1646 | Writes the stage's sampler range and binds only slots whose sampler changed. |
| Device.D3D10Device.SetShaderResources | src/d3d10_1/d3d10_1_context.cpp:1649-1667 | Writes the stage's shader-resource range and binds only slots whose view changed. |
| Device.D3D10Device.OMSetRenderTargets | src/d3d10_1/d3d10_1_context.cpp:1080-1103 | From 500 pending draws it flushes first: pending init commands are submitted (one submission when there were any), the init counter is reset and the CS thread is idle. Below 500 the init counters are untouched and the busy flag changes only through a dispatched full chunk. Slot i then holds view i when i < NumViews, else null. The framebuffer is rebound. |
| Device.D3D10Device.OMSetBlendState | src/d3d10_1/d3d10_1_context.cpp:1105-1125 | Stores state, factor and mask. The state is rebound when the state or the mask changed. A given factor is stored and applied whenever one is passed, changed or not. |
| Device.D3D10Device.OMSetDepthStencilState | src/d3d10_1/d3d10_1_context.cpp:1128-1142 | Stores state and reference. Each is re-applied only when it changed. |
| Device.D3D10Device.RSSetState | src/d3d10_1/d3d10_1_context.cpp:1184-1196 | Stores the state. When it changed, the state and the viewports are re-applied. |
| Device.D3D10Device.RSSetViewports | src/d3d10_1/d3d10_1_context.cpp:1199-1208 | Stores the viewports and their count, then re-applies viewport state. |
| Device.D3D10Device.RSSetScissorRects | src/d3d10_1/d3d10_1_context.cpp:1211-1226 | Stores the rectangles and their count. Re-applies viewport state only when the scissor test is on. |
| Device.D3D10Device.SOSetTargets | src/d3d10_1/d3d10_1_context.cpp:1277-1287 | Slot i holds target i for the given targets and null for the rest. Nothing is recorded. |
| Device.D3D10Device.RestoreVertexBuffers | src/d3d10_1/d3d10_1_context.cpp:1711-1716 | Re-binds every vertex-buffer slot in order. |
| Device.D3D10Device.RestoreConstantBuffers | src/d3d10_1/d3d10_1_context.cpp:1732-1740 | Re-binds every constant-buffer slot of the stage in order. |
| Device.D3D10Device.RestoreSamplers | src/d3d10_1/d3d10_1_context.cpp:1743-1751 | Re-binds every sampler slot of the stage in order. |
| Device.D3D10Device.RestoreShaderResources | src/d3d10_1/d3d10_1_context.cpp:1754-1762 | Re-binds every shader-resource slot of the stage in order. |
| Device.D3D10Device.RestoreFramebufferAndShaders | src/d3d10_1/d3d10_1_context.cpp:1689-1693 | Records the render targets, then the vertex, geometry and pixel shaders of the snapshot, in that order. |
| Device.D3D10Device.RestoreFixedState | src/d3d10_1/d3d10_1_context.cpp:1691-1709 | Records the framebuffer, the three shaders, all fixed state and the index buffer, in source order. |
| Device.D3D10Device.RestoreSlotBindings | src/d3d10_1/d3d10_1_context.cpp:1711-1728 | Records every vertex-buffer slot, then the constant buffers, samplers and shader resources of each stage. |
| Device.D3D10Device.RestoreState | src/d3d10_1/d3d10_1_context.cpp:1690-1729 | Records exactly `RestoreCommands(state)`: the fixed state, then every slot of every stage. |
| Device.D3D10Device.ClearState | src/d3d10_1/d3d10_1_context.cpp:18-89 | The snapshot becomes `Cleared` of the old one, then the state is restored. That records exactly 501 commands, none of which binds anything. |
| Device.D3D10Device.SubmitResourceInitCommands | src/d3d10_1/d3d10_1_device.cpp:1580-1589 | Submits once and resets the pending counter to 0. |
| Device.D3D10Device.UnlockResourceInitContext | src/d3d10_1/d3d10_1_device.cpp:1565-1577 | Adds the count. Submits and resets when the total reaches 50; otherwise keeps the sum. |
| Device.D3D10Device.FlushInitContext | src/d3d10_1/d3d10_1_device.cpp:479-484 | Submits exactly when commands are pending, and leaves none. |
| Device.D3D10Device.InitBuffer | src/d3d10_1/d3d10_1_device.cpp:1354-1371 | A buffer with initial data adds one init command; one without adds none. When the count reaches the threshold of 50, the init commands are submitted once and the count restarts at 0. |
| Device.D3D10Device.InitTexture | src/d3d10_1/d3d10_1_device.cpp:1374-1445 | With data, it uploads every subresource, indexed mip + layer·mips, and counts layers×mips commands. Without data, it counts one clear. When the count reaches the threshold of 50, the init commands are submitted once and the count restarts at 0. |
| Copies.CopyRegionCommand | src/d3d10_1/d3d10_1_context.cpp:115-239 | Incompatible dimensions record nothing; 2D to 3D and back are allowed. A buffer copy is dropped iff box left > right. A texture copy is dropped iff the box is empty on some axis. Otherwise one copy is recorded. With a box, it starts at the box's corner (each coordinate converted to int32_t, as the destination offset is) and its extent is the box's width, height and (for equal dimensions) depth. Without one, it copies the whole source mip level. |
| Copies.WholeBufferBoxIsNoBox | src/d3d10_1/d3d10_1_context.cpp:144-167 | A box spanning the whole source buffer copies what no box copies. |
| Copies.WholeImageBoxIsNoBox | src/d3d10_1/d3d10_1_context.cpp:185-203 | A box spanning the whole source mip copies what no box copies. |
| Copies.CopySubresourceRegion | src/d3d10_1/d3d10_1_context.cpp:115-239 | Records the command `CopyRegionCommand` describes, if any, and nothing else. |
| Copies.I32 | src/d3d10_1/d3d10_1_context.cpp:184-198 | The int32 cast of a UINT lies in the int32 range and wraps back to the same UINT. |
| ContextState.DefaultState | src/d3d10_1/d3d10_1_context_state.h:17-115 | The declared defaults: null bindings everywhere and an UNDEFINED topology. The index format is UNKNOWN, the blend factor 1,1,1,1, the sample mask 0xFFFFFFFF and stencil ref 0. There are no viewports or scissors and the predicate is null/FALSE. |
| ContextState.Cleared | src/d3d10_1/d3d10_1_context.cpp:18-89 | Every binding is null. Topology is UNDEFINED, the index format UNKNOWN and the blend factor 0. Sample mask and stencil ref take their defaults. There are no viewports or scissors and the predicate is null/FALSE. The SO targets are kept. |
| ContextState.ClearedVersusDeclaredDefaults | src/d3d10_1/d3d10_1_context.cpp:67-68 | A cleared snapshot differs from the declared default only in the blend factor. |
| ContextState.ClearedIdempotent | src/d3d10_1/d3d10_1_context.cpp:18-89 | Clearing twice is clearing once. |
| ContextState.WithStage | src/d3d10_1/d3d10_1_context_state.h:121-133 | Replacing one stage's state leaves the other stages and all fixed state alone. |
| ContextQueries.SlotRange | src/d3d10_1/d3d10_1_context.cpp:797-913 | A Get* accessor copies out exactly the n slots from start. |
| ContextQueries.SetThenGetSlots | src/d3d10_1/d3d10_1_context.cpp:842-913 | Reading back a range just set returns what was set. |
| ContextQueries.SetThenGetRenderTargets | src/d3d10_1/d3d10_1_context.cpp:1080-1156 | Reading back render targets returns the views set, and null beyond them. |
| ContextQueries.RSGetViewports | src/d3d10_1/d3d10_1_context.cpp:1235-1254 | Always reports the stored count. It fills the requested entries, zeroing those at or beyond the stored count. |
| ContextQueries.RSGetScissorRects | src/d3d10_1/d3d10_1_context.cpp:1257-1274 | Always reports the stored count. It fills the requested entries, zeroing those at or beyond the stored count. |
| ContextQueries.SetThenGetViewports | src/d3d10_1/d3d10_1_context.cpp:1199-1254 | Reading back viewports just set returns them and their count. |
| ContextQueries.SetThenGetScissorRects | src/d3d10_1/d3d10_1_context.cpp:1211-1274 | Reading back scissor rectangles just set returns them and their count. |
| ContextRules.InputAssemblyFor | src/d3d10_1/d3d10_1_context.cpp:1312-1355 | UNDEFINED gives nothing. Primitive restart is on exactly for strip topologies. Unknown values fall back to a point list. |
| ContextRules.InputAssemblyInjective | src/d3d10_1/d3d10_1_context.cpp:1312-1355 | Distinct known topologies map to distinct Vulkan topologies. |
| ContextRules.IndexTypeFor | src/d3d10_1/d3d10_1_context.cpp:1525-1547 | The index type is 16-bit iff a buffer is bound with format R16_UINT. |
| ContextRules.FlipViewport | src/d3d10_1/d3d10_1_context.cpp:1424-1432 | The Vulkan viewport is (x, y+h, w, -h) with depths kept, so its bottom edge is the application's top. |
| ContextRules.UnflipViewport | src/d3d10_1/d3d10_1_context.cpp:1424-1432 | Recovers height and top edge from a flipped viewport. |
| ContextRules.FlipRoundTrip | src/d3d10_1/d3d10_1_context.cpp:1424-1432 | Un-flipping a flipped viewport gives back the application's viewport. |
| ContextRules.FlipViewportAsWritten | src/d3d10_1/d3d10_1_context.cpp:1428 | As written, y is a UINT sum, always in [0, 2^32). |
| ContextRules.FlipAsWrittenAgrees | src/d3d10_1/d3d10_1_context.cpp:1428 | The as-written y agrees with the intended one whenever the sum is a valid UINT. |
| ContextRules.FlipAsWrittenWrapsNegativeBottom | src/d3d10_1/d3d10_1_context.cpp:1428 | A viewport at y=-100 of height 50 gets y = 2^32-50 as written, where -50 is intended. |
| ContextRules.ScissorFor | src/d3d10_1/d3d10_1_context.cpp:1445-1464 | With the scissor test on and i below the count, the application rectangle is used. Otherwise it is {0,0,BOUNDS_MAX,BOUNDS_MAX}. |
| ContextRules.FlippedViewports | src/d3d10_1/d3d10_1_context.cpp:1424-1432 | One Vulkan viewport per active D3D10 viewport. Each starts at the viewport's bottom edge with the negated height, and unflipping it gives the stored viewport back. |
| ContextRules.ScissorRects | src/d3d10_1/d3d10_1_context.cpp:1445-1464 | One scissor per viewport. With the test on and a rectangle stored for the slot, it is that rectangle's origin with the uint32_t casts of its width and height. Otherwise it is the full-bounds rectangle. |
| ContextRules.ConstantBufferSlice | src/d3d10_1/d3d10_1_context.cpp:1550-1563 | Null binds an empty slice. Otherwise the slice covers bytes [16·offset, 16·(offset+count)). |
| ContextRules.BufferSliceFrom | src/d3d10_1/d3d10_1_context.cpp:1510-1547 | Shared by the vertex- and index-buffer binds. Null binds an empty slice. Otherwise the slice runs from the offset to the end of the buffer. |
| ContextRules.VertexBufferStride | src/d3d10_1/d3d10_1_context.cpp:1510-1522 | The stride is 0 for null and the given one otherwise. |
| ContextRules.CbBindingFor | src/d3d10_1/d3d10_1_context.cpp:1598-1612 | Null gives {null,0,0}. A buffer without explicit ranges binds offset 0 and count size/16. Explicit ranges are taken as given. |
| ContextRules.CbBindings | src/d3d10_1/d3d10_1_context.cpp:1590-1625 | One binding per given buffer, each as `CbBindingFor` says. |
| ContextRules.VbBindings | src/d3d10_1/d3d10_1_context.cpp:761-769 | One binding per given buffer, with its own offset and stride. |
| StateCommands.TopologyCmds | src/d3d10_1/d3d10_1_context.cpp:1312-1355 | At most one command; none exactly for UNDEFINED. |
| StateCommands.ViewportCmds | src/d3d10_1/d3d10_1_context.cpp:1412-1476 | At most one command; none exactly when there are no viewports. The command carries the count, FlippedViewports and ScissorRects. |
| StateCommands.IndexBufferCmd | src/d3d10_1/d3d10_1_context.cpp:1525-1547 | The slice is empty iff the buffer is null; the type is 16-bit iff the format is R16_UINT. |
| StateCommands.VertexBufferCmd | src/d3d10_1/d3d10_1_context.cpp:1510-1522 | Binds the slot. The slice is empty iff the buffer is null, and a null buffer has stride 0. |
| StateCommands.ConstantBufferCmd | src/d3d10_1/d3d10_1_context.cpp:1550-1563 | Binds the stage and slot. The slice is empty iff the buffer is null. |
| StateCommands.FramebufferCmd | src/d3d10_1/d3d10_1_context.cpp:1479-1507 | Carries the stored render targets and depth-stencil view. |
| StateCommands.ShaderCmd | src/d3d10_1/d3d10_1_device.h:408-418 | A shader bind for exactly that stage, carrying the stage's stored shader (null when none is bound). |
| StateCommands.InputLayoutCmd | src/d3d10_1/d3d10_1_context.cpp:1299-1309 | Carries the stored input layout. |
| StateCommands.BlendStateCmd | src/d3d10_1/d3d10_1_context.cpp:1358-1367 | Carries the stored blend state and sample mask. |
| StateCommands.BlendFactorCmd | src/d3d10_1/d3d10_1_context.cpp:1370-1378 | Carries the stored blend factor. |
| StateCommands.DepthStencilStateCmd | src/d3d10_1/d3d10_1_context.cpp:1381-1389 | Carries the stored depth-stencil state. |
| StateCommands.StencilRefCmd | src/d3d10_1/d3d10_1_context.cpp:1392-1398 | Carries the stored stencil reference. |
| StateCommands.RasterizerStateCmd | src/d3d10_1/d3d10_1_context.cpp:1401-1409 | Carries the stored rasterizer state. |
| StateCommands.RestoreFixedCommands | src/d3d10_1/d3d10_1_context.cpp:1691-1709 | There are 11 fixed commands, plus one for a defined topology and one when viewports are set. |
| StateCommands.RestoreSlotCommands | src/d3d10_1/d3d10_1_context.cpp:1711-1728 | One bind per vertex-buffer slot and per constant-buffer, sampler and resource slot of each of the three stages. |
| StateCommands.RestoreCommandsCount | src/d3d10_1/d3d10_1_context.cpp:1690-1729 | A full restore records 501 commands, plus one for a defined topology and one when viewports are set. |
| StateCommands.ClearedRestoreBindsNothing | src/d3d10_1/d3d10_1_context.cpp:18-89 | Restoring a cleared snapshot records 501 commands, and none of them binds a shader, view, buffer, sampler or state object. |
| StateCommands.AllSlotBinds | src/d3d10_1/d3d10_1_context.cpp:1711-1762 | One bind per slot, in slot order. |
| SlotUpdates.Splice | src/d3d10_1/d3d10_1_context.cpp:1590-1667 | Slots in the written range take the new values; the others keep theirs. |
| SlotUpdates.ChangedBinds | src/d3d10_1/d3d10_1_context.cpp:1590-1667 | There are at most as many binds as slots written. A changed last slot ends the list with its bind. |
| SlotUpdates.ChangedBindsEmptyIff | src/d3d10_1/d3d10_1_context.cpp:1590-1667 | A range update records nothing iff it rebinds exactly what is stored. |
| SlotUpdates.ChangedBindsNoneChanged | src/d3d10_1/d3d10_1_context.cpp:1590-1667 | No bind is recorded iff every written slot keeps its value. |
| SlotUpdates.ChangedBindsCount | src/d3d10_1/d3d10_1_context.cpp:1590-1667 | The number of binds is the number of slots whose value changed. |
| SlotUpdates.PadTo | src/d3d10_1/d3d10_1_context.cpp:1093-1097 | Slot i holds value i below the count and the fill value above it. |
| SlotUpdates.RangeBinds | src/d3d10_1/d3d10_1_context.cpp:761-769 | One bind per written slot, in order, with no change check. |
| BufferSlices.WholeSlice | src/d3d10_1/d3d10_1_buffer.h:55-57 | The slice covers [0, size). |
| BufferSlices.SliceFrom | src/d3d10_1/d3d10_1_buffer.h:59-61 | The slice covers [offset, size). An offset past the end wraps the 64-bit length. |
| BufferSlices.SubSlice | src/d3d10_1/d3d10_1_buffer.h:63-65 | The slice covers exactly [offset, offset+length). |
| BufferSlices.SizeOf | src/d3d10_1/d3d10_1_buffer.h:67-69 | The size is the length of the whole-buffer slice. |
| BufferSlices.SlicesAgree | src/d3d10_1/d3d10_1_buffer.h:55-65 | The three overloads agree: from an offset is a sub-slice to the end, and from 0 is the whole buffer. |
| Buffers.BufferCreateInfoFor | src/d3d10_1/d3d10_1_buffer.cpp:112-162 | Usage always includes transfer source and destination. Each bind flag adds exactly its own usage, stage and access bits. CPU read/write access adds the host stage and the matching host access. |
| Buffers.GetMemoryFlags | src/d3d10_1/d3d10_1_buffer.cpp:165-178 | DEFAULT usage with a constant-buffer bind is host visible and coherent. Otherwise the flags come from the per-usage helper. |
| Buffers.DefaultConstantBufferIsMappable | src/d3d10_1/d3d10_1_buffer.cpp:165-178 | A DEFAULT constant buffer is always host visible. |
| Buffers.D3D10Buffer.constructor | src/d3d10_1/d3d10_1_buffer.cpp:8-16 | The buffer has its descriptor and one physical slice, which is mapped. |
| Buffers.D3D10Buffer.Map | src/d3d10_1/d3d10_1_buffer.cpp:66-105 | Memory that is not host visible gives E_INVALIDARG and changes nothing. WRITE_DISCARD maps a new slice, records one invalidation and never waits. WRITE_NO_OVERWRITE returns the old slice without waiting. Other types wait, and report WAS_STILL_DRAWING when the wait is refused. |
| Buffers.D3D10Buffer.Unmap | src/d3d10_1/d3d10_1_buffer.cpp:107-110 | Changes nothing. |
| Buffers.UpdateRange | src/d3d10_1/d3d10_1_context.cpp:431-441 | No box means the whole buffer. A box means [left, right). |
| Buffers.UpdatePathFor | src/d3d10_1/d3d10_1_context.cpp:431-511 | Past the end is a no-op, and so is size 0. A whole-buffer write to host-visible memory maps with discard. Anything else is an upload copy. |
| Buffers.InvertedBoxIsDropped | src/d3d10_1/d3d10_1_context.cpp:431-445 | A box with left > right wraps to a huge size and is dropped as out of range. |
| Buffers.UpdateBufferSubresource | src/d3d10_1/d3d10_1_context.cpp:416-511 | No-op paths record nothing. The discard path maps a fresh slice and records one invalidation. The upload path records one buffer update of exactly the destination range. |
| Textures.GetFormatMode | src/d3d10_1/d3d10_1_texture.cpp:309-317 | Render target wins over depth-stencil; ANY is the fallback. |
| Textures.NormalizedMipLevels | src/d3d10_1/d3d10_1_texture.cpp:325-339 | A count within [1, max] is kept; 0 or too many becomes max. |
| Textures.NormalizedMipLevelsIdempotent | src/d3d10_1/d3d10_1_texture.cpp:325-339 | Normalising twice is normalising once. |
| Textures.NormalizeTextureProperties | src/d3d10_1/d3d10_1_texture.cpp:325-339 | An invalid sample count gives E_INVALIDARG and no change. Otherwise the mip count is normalised against the full chain for one sample, or 1 for multisampling. |
| Textures.CheckImageSupport | src/d3d10_1/d3d10_1_texture.cpp:341-361 | True iff the property query succeeds and the image is within its limits (`WithinLimits`): extent, layers and mips within the reported maxima, and the sample count allowed. |
| Textures.SupportIsMonotone | src/d3d10_1/d3d10_1_texture.cpp:341-361 | Support survives any loosening of the limits. |
| Textures.DetermineMapMode | src/d3d10_1/d3d10_1_texture.cpp:364-386 | NONE without CPU access. Otherwise BUFFER for DYNAMIC usage, DIRECT iff linear tiling is supported, and BUFFER otherwise. |
| Textures.OptimizeLayout | src/d3d10_1/d3d10_1_texture.cpp:424-453 | Ignoring transfer bits: colour-attachment only gives its optimal layout, and depth only likewise. Sampled only gives a read-only layout (the depth variant with the depth bit). Anything else is GENERAL. |
| Textures.OptimizeLayoutIgnoresTransfer | src/d3d10_1/d3d10_1_texture.cpp:428-429 | Adding or removing transfer bits never changes the layout. |
| Textures.GetSubresourceFromIndex | src/d3d10_1/d3d10_1_texture.cpp:298-306 | The mip is below the mip count, and mip + layer·mips gives back the index. |
| Textures.SubresourceRoundTrip | src/d3d10_1/d3d10_1_texture.cpp:298-306 | Decoding the flat index of (mip, layer) gives back (mip, layer) whenever the mip is in range. |
| Textures.InitIndicesDecodeInside | src/d3d10_1/d3d10_1_device.cpp:1390-1400 | Every index the init path numbers decodes to a layer inside the texture. |
| Textures.BaseImageInfo | src/d3d10_1/d3d10_1_texture.cpp:6-75 | The image create info has the descriptor's extent, layers, mips and samples. Each bind flag adds exactly its usage, stage and access bits. |
| Textures.MappedBufferInfo | src/d3d10_1/d3d10_1_texture.cpp:389-411 | The staging buffer holds element size × block count bytes. It is a transfer buffer in host-visible, coherent memory. |
| Textures.D3D10CommonTexture.constructor | src/d3d10_1/d3d10_1_texture.cpp:6-113 | The map mode is `DetermineMapMode`. DIRECT uses linear tiling, the GENERAL layout and host memory; the others use device-local memory and an optimised layout. Only BUFFER creates a staging buffer. The mapped subresource starts as {COLOR, 0, 0}. |
| Textures.D3D10CommonTexture.GetMappedSubresource | src/d3d10_1/d3d10_1_texture.h:103-109 | Returns the stored mapped subresource. |
| Textures.D3D10CommonTexture.SetMappedSubresource | src/d3d10_1/d3d10_1_texture.h:111-117 | A later get returns what was set. |
| Textures.D3D10CommonTexture.ClearMappedSubresource | src/d3d10_1/d3d10_1_texture.h:119-121 | A later get returns the zero subresource. |
| Textures.D3D10CommonTexture.Map | src/d3d10_1/d3d10_1_texture.cpp:120-262 | Map mode NONE or a non-colour format gives E_INVALIDARG. DIRECT maps the image subresource after a wait. BUFFER maps the staging buffer with row pitch elementSize × block width. The mapped subresource is recorded. |
| Textures.D3D10CommonTexture.PrepareStagingBuffer | src/d3d10_1/d3d10_1_texture.cpp:196-248 | WRITE_DISCARD swaps in a fresh staging slice. For any other map type, a STAGING texture's subresource is copied into the buffer and the commands are submitted. Other usages copy nothing. They only flush before waiting on the buffer, which submits when the worker is busy or the open chunk is non-empty. |
| Textures.D3D10CommonTexture.Unmap | src/d3d10_1/d3d10_1_texture.cpp:264-295 | Records a buffer-to-image copy only in BUFFER mode, and always clears the mapped subresource. |
| Textures.CreateCommonTexture | src/d3d10_1/d3d10_1_texture.cpp:6-113 | The texture is created only when the image is supported; its map mode follows `DetermineMapMode`. |
| Views.GetDescFromResource | src/d3d10_1/d3d10_1_view_rtv.cpp:54-122 | Buffers and unknown resources give E_INVALIDARG and leave the descriptor alone. 1D gives TEXTURE1D or 1DARRAY and 2D gives 2D/2DARRAY or MS/MSARRAY by sample count, covering all layers. 3D covers [0, depth). Each uses mip 0 and the resource format. |
| Views.ClampedSliceCount | src/d3d10_1/d3d10_1_view_rtv.cpp:192-215 | The count is min(count, layers - first) with an unsigned subtraction, which wraps when first exceeds the layers. |
| Views.NormalizeDesc | src/d3d10_1/d3d10_1_view_rtv.cpp:125-218 | A dimension not allowed for the resource gives E_INVALIDARG and no change. UNKNOWN format becomes the resource format; an explicit one is kept. Array counts are clamped. Non-array dimensions are not touched. |
| Views.RtvViewInfo | src/d3d10_1/d3d10_1_device.cpp:548-610 | Unknown and buffer dimensions give nothing. Otherwise one level. MS dimensions use level 0 and non-array dimensions one layer. 3D becomes a 2D array over [FirstWSlice, FirstWSlice+WSize). |
| Views.DsvViewInfo | src/d3d10_1/d3d10_1_device.cpp:668-733 | Like the render-target mapping, but with no 3D dimension. |
| Views.CreateRenderTargetView | src/d3d10_1/d3d10_1_device.cpp:506-627 | A buffer gives S_OK with no view. A texture without the render-target bind gives E_INVALIDARG. Without a descriptor, the view's descriptor is the one derived from the resource (`IsResourceDesc`). With one, it is that descriptor normalised (`IsNormalizedDesc`): same dimension, mip and first slice, an UNKNOWN format replaced by the texture's, and an array slice count clamped to the layers left. A compatible dimension on a render-target texture succeeds: S_FALSE for a null out-pointer, else S_OK with the view info of that descriptor. |
| Views.CreateDepthStencilViewInfo | src/d3d10_1/d3d10_1_device.cpp:630-737 | Without a descriptor or the depth-stencil bind it is E_INVALIDARG. Otherwise the view info is the depth-stencil mapping, with S_FALSE for a null out-pointer. |
| InputLayouts.Align4 | src/d3d10_1/d3d10_1_device.cpp:791 | The next multiple of 4 at or above x. |
| InputLayouts.PackedOffsetClearsPrevious | src/d3d10_1/d3d10_1_device.cpp:783-795 | An appended attribute starts at or after the end of the nearest earlier attribute on its slot. |
| InputLayouts.FindPackedOffset | src/d3d10_1/d3d10_1_device.cpp:783-795 | The search loop computes the packed offset: aligned end of the nearest earlier attribute on the slot, or 0. |
| InputLayouts.AttributesMatchKeptElements | src/d3d10_1/d3d10_1_device.cpp:758-797 | There is one attribute per element whose semantic the shader declares, in order, with its register, slot and format. Skipped elements produce nothing. |
| InputLayouts.CheckBinding | src/d3d10_1/d3d10_1_device.cpp:811-824 | `defined` iff the slot already has a binding; `conflict` iff such a binding has a different input rate. |
| InputLayouts.ConflictSplit | src/d3d10_1/d3d10_1_device.cpp:802-827 | Appending an element introduces a conflict exactly when it is kept and clashes with an earlier binding on its slot. |
| InputLayouts.SameSlotSameRate | src/d3d10_1/d3d10_1_device.cpp:802-827 | Without a conflict, kept elements on one slot share their input rate. |
| InputLayouts.ConflictExtends | src/d3d10_1/d3d10_1_device.cpp:802-827 | A conflict in a prefix is a conflict of the whole list. |
| InputLayouts.BindingsOfFacts | src/d3d10_1/d3d10_1_device.cpp:802-827 | Each slot gets at most one binding, and every kept element's slot has one. |
| InputLayouts.InsertBinding | src/d3d10_1/d3d10_1_device.cpp:847-850 | Insertion adds exactly the one binding. |
| InputLayouts.InsertBindingSorted | src/d3d10_1/d3d10_1_device.cpp:847-850 | Inserting into a list sorted by slot keeps it sorted. |
| InputLayouts.SortBindings | src/d3d10_1/d3d10_1_device.cpp:847-850 | The result is sorted by slot and a permutation of the input. |
| InputLayouts.SortedDistinctAscending | src/d3d10_1/d3d10_1_device.cpp:847-850 | With distinct slots the sorted bindings are strictly ascending. |
| InputLayouts.CreateInputLayout | src/d3d10_1/d3d10_1_device.cpp:740-868 | E_INVALIDARG iff two kept elements on one slot differ in input rate. Otherwise the attributes are the kept elements with packed offsets and the bindings one per slot, sorted ascending. APPEND_ALIGNED uses the corrected search of Finding (b). |
| InputLayouts.LayoutBindingsPerSlot | src/d3d10_1/d3d10_1_device.cpp:802-850 | The final bindings are strictly ascending, and every kept element's slot is among them. |
| InputLayouts.SortKeepsSlot | src/d3d10_1/d3d10_1_device.cpp:847-850 | Sorting loses no slot. |
| InputLayouts.SearchAsWrittenAgreesWithoutSkips | src/d3d10_1/d3d10_1_device.cpp:786-794 | With no skipped element, the as-written search by element position finds the packed offset. |
| InputLayouts.SearchAsWrittenThrowsAfterSkip | src/d3d10_1/d3d10_1_device.cpp:786-787 | After a skip, the as-written search indexes past the attribute list (`at` throws). |
| InputLayouts.AppendAlignedAfterSkippedElementThrows | src/d3d10_1/d3d10_1_device.cpp:758-795 | A skipped COLOR element followed by an appended POSITION makes the as-written search fail. The corrected layout puts POSITION at offset 0. |
| Features.GetDeviceFeatures | src/d3d10_1/d3d10_1_device.cpp:1293-1335 | Below 9_1 nothing is enabled. Pipeline statistics and logic ops only where the adapter has them. 10_1 enables dual-source blend, cube arrays, geometry shaders and multi-viewport. |
| Features.CheckFeatureLevelSupport | src/d3d10_1/d3d10_1_device.cpp:1274-1290 | A level above the environment's ceiling is refused. Any supported level is at most 10_1, and the adapter accepts its feature set. At or below 9_1, support is exactly the adapter's acceptance. |
| Features.FeaturesCumulative | src/d3d10_1/d3d10_1_device.cpp:1293-1335 | Every feature enabled at a level is enabled at every higher level. |
| Features.FeaturesGrowWithAdapter | src/d3d10_1/d3d10_1_device.cpp:1293-1335 | A more capable adapter never loses a feature. |
| Features.FindLevel | src/d3d10_1/d3d10_1_device.cpp:1592-1611 | Finds a level exactly when the name is in the table, and returns that entry's level. |
| Features.GetMaxFeatureLevel | src/d3d10_1/d3d10_1_device.cpp:1592-1611 | The ceiling is one of the five levels, and 10_0 for an unset or unknown variable. |
| Features.MaxFeatureLevelNamed | src/d3d10_1/d3d10_1_device.cpp:1592-1611 | A level named in the variable becomes the ceiling. |
| Features.SupportDownwardClosed | src/d3d10_1/d3d10_1_device.cpp:1274-1290 | With an adapter that accepts what it offers, support for a level implies support for every lower level. |
| BlendState.DecodeBlendFactor | src/d3d10_1/d3d10_1_blend.cpp:164-188 | Total; unknown values give ZERO. BLEND_FACTOR and INV_BLEND_FACTOR give the constant-alpha variants for alpha and the constant-colour variants for colour. |
| BlendState.DecodeBlendFactorInjective | src/d3d10_1/d3d10_1_blend.cpp:164-188 | Distinct known factors decode differently. |
| BlendState.DecodeBlendOp | src/d3d10_1/d3d10_1_blend.cpp:191-203 | Total; ADD exactly for ADD and unknown ops. |
| BlendState.DecodeBlendMode | src/d3d10_1/d3d10_1_blend.cpp:149-161 | Copies enable and write mask. Colour factors never use constant alpha, and alpha factors never constant colour. |
| BlendState.BlendModesFor | src/d3d10_1/d3d10_1_blend.cpp:13-18 | Eight modes. Mode i decodes target i with independent blending, and target 0 otherwise. |
| BlendState.D3D10BlendState.constructor | src/d3d10_1/d3d10_1_blend.cpp:6-27 | Stores the descriptor and the eight modes, with alpha-to-coverage from the descriptor, alpha-to-one off and the logic op disabled. |
| BlendState.D3D10BlendState.BindToContext | src/d3d10_1/d3d10_1_blend.cpp:80-96 | Binds all eight modes and the given sample mask in place of the stored one. The logic op stays disabled. |
| BlendState.GetDesc | src/d3d10_1/d3d10_1_blend.cpp:57-71 | Per-target enables and write masks are reported. Target 0's factors and ops are reported for every target. The report is exact for all targets iff every target shares target 0's factors and ops. |
| BlendState.PromoteDesc | src/d3d10_1/d3d10_1_blend.cpp:122-139 | Independent blending is off. Shared factors and ops fill all eight slots, with per-slot enable and mask. `GetDesc` of the result is the input. |
| BlendState.DefaultDesc | src/d3d10_1/d3d10_1_blend.cpp:99-119 | Eight slots with blending off, ONE/ZERO/ADD and write mask ALL. |
| BlendState.DefaultTargetPassesThrough | src/d3d10_1/d3d10_1_blend.cpp:99-119 | The default target decodes to a pass-through blend mode. |
| DepthStencilState.DecodeStencilOp | src/d3d10_1/d3d10_1_depth_stencil.cpp:109-124 | Total; KEEP exactly for KEEP and unknown values. |
| DepthStencilState.DecodeStencilOpInjective | src/d3d10_1/d3d10_1_depth_stencil.cpp:109-124 | Distinct known ops decode differently. |
| DepthStencilState.DecodeStencilOpState | src/d3d10_1/d3d10_1_depth_stencil.cpp:86-106 | Masks come from the descriptor and the reference is 0. With stencil off the face is KEEP/KEEP/KEEP/ALWAYS. With stencil on, the three ops and the compare op are decoded from the face. |
| DepthStencilState.Decode | src/d3d10_1/d3d10_1_depth_stencil.cpp:6-19 | The depth test follows DepthEnable. Depth write is on iff the mask is ALL. Depth bounds are off. The depth compare op is decoded from DepthFunc. The front and back faces decode from FrontFace and BackFace. |
| DepthStencilState.DisabledStencilIgnoresFaces | src/d3d10_1/d3d10_1_depth_stencil.cpp:86-104 | With stencil off, both faces decode identically. |
| DepthStencilState.DefaultDescDecodes | src/d3d10_1/d3d10_1_depth_stencil.cpp:59-76 | The default decodes to depth on, write on, LESS and stencil off, with KEEP/ALWAYS faces and 0xff masks. |
| RasterizerState.DecodeFillMode | src/d3d10_1/d3d10_1_rasterizer.cpp:16-26 | LINE exactly for WIREFRAME, and FILL otherwise. |
| RasterizerState.DecodeCullMode | src/d3d10_1/d3d10_1_rasterizer.cpp:31-42 | FRONT and BACK map to their Vulkan modes; anything else is NONE. |
| RasterizerState.Decode | src/d3d10_1/d3d10_1_rasterizer.cpp:6-60 | Depth clamp is the negation of depth clip. Counter-clockwise front iff FrontCounterClockwise. Depth bias is always on and discard always off. |
| RasterizerState.DefaultDescDecodes | src/d3d10_1/d3d10_1_rasterizer.cpp:97-110 | The default decodes to FILL, BACK, clockwise and clip on. |
| SamplerState.ClampAnisotropy | src/d3d10_1/d3d10_1_sampler.cpp:28-38 | The result lies in [1, 16] and equals the input when it is already in range. |
| SamplerState.ClampAnisotropyIdempotent | src/d3d10_1/d3d10_1_sampler.cpp:36-38 | Clamping twice is clamping once. |
| SamplerState.Decode | src/d3d10_1/d3d10_1_sampler.cpp:7-47 | Mag, min and mip are LINEAR iff bits 0x04, 0x10 and 0x01. Anisotropy iff 0x40 and compare iff 0x80. MaxAnisotropy is kept within [1, 16] and otherwise clamped to 1 or 16. The three address modes and the compare op are decoded from the descriptor. The border colour is decoded only for a CLAMP_TO_BORDER mode; pixel coordinates are off. |
| SamplerState.NormalizeDesc | src/d3d10_1/d3d10_1_sampler.cpp:81-90 | E_INVALIDARG iff the filter has a bit in 0xFFFFFF2A, and S_OK otherwise. |
| SamplerState.AcceptedFilterDeterminedByDecoding | src/d3d10_1/d3d10_1_sampler.cpp:15-21 | Two accepted filters that decode alike are equal. |
| StateObjectSet.CreateStep | src/d3d10_1/d3d10_1_state.h:56-67 | A known descriptor returns its object and inserts nothing. A new one inserts exactly one entry keyed by it. |
| StateObjectSet.CreateIdempotent | src/d3d10_1/d3d10_1_state.h:56-67 | Two creates of one descriptor return the same object, and the map grows by at most one. |
| StateObjectSet.CreateNewIsDistinct | src/d3d10_1/d3d10_1_state.h:64-66 | A new descriptor gets an object no other descriptor has. |
| StateObjectSet.D3D10StateObjectSet.constructor | src/d3d10_1/d3d10_1_state.h:71-73 | A new set is empty. |
| StateObjectSet.D3D10StateObjectSet.Create | src/d3d10_1/d3d10_1_state.h:56-67 | Behaves as `CreateStep`. Entries are never removed, and the descriptor maps to the returned object. |
| Query.QueryObjectsFor | src/d3d10_1/d3d10_1_query.cpp:10-41 | EVENT has an event only. OCCLUSION is a precise occlusion query and OCCLUSION_PREDICATE an imprecise one. TIMESTAMP and PIPELINE_STATISTICS have their query kinds. TIMESTAMP_DISJOINT has neither, and other types are refused. |
| Query.GetDataSize | src/d3d10_1/d3d10_1_query.cpp:78-107 | BOOL-sized for EVENT and both predicates, UINT64 for OCCLUSION and TIMESTAMP, and 0 for unknown types. |
| Query.HasBeginEnabled | src/d3d10_1/d3d10_1_query.cpp:126-130 | True exactly for OCCLUSION, OCCLUSION_PREDICATE and PIPELINE_STATISTICS. |
| Query.BeginEnabledQueriesCount | src/d3d10_1/d3d10_1_query.cpp:126-130 | A type has Begin enabled iff it owns a query that is not a timestamp. |
| Query.D3D10Query.constructor | src/d3d10_1/d3d10_1_query.cpp:6-42 | The objects are those of the type and the revision is 0. |
| Query.D3D10Query.Reset | src/d3d10_1/d3d10_1_query.cpp:115-123 | Resets the query if there is one, else the event. With neither it returns 0. |
| Query.D3D10Query.Begin | src/d3d10_1/d3d10_1_query.cpp:133-140 | Stores the revision and begins the query if there is one. |
| Query.D3D10Query.End | src/d3d10_1/d3d10_1_query.cpp:143-148 | Ends the query at the stored revision if there is one. |
| Query.D3D10Query.Signal | src/d3d10_1/d3d10_1_query.cpp:151-166 | EVENT signals the event and TIMESTAMP writes a timestamp. Other types do nothing. |
| Query.D3D10Query.GetData | src/d3d10_1/d3d10_1_query.cpp:169-227 | EVENT gives S_OK iff signalled, and writes the flag when asked. Otherwise a pending query gives S_FALSE. A finished query with null data gives S_OK. With data, OCCLUSION reports the sample count, OCCLUSION_PREDICATE samples ≠ 0, TIMESTAMP the time, TIMESTAMP_DISJOINT {1000, FALSE} and PIPELINE_STATISTICS the counters, all with S_OK. Any other type gives E_INVALIDARG. |
| Query.CreateQuery | src/d3d10_1/d3d10_1_device.cpp:1043-1068 | A type outside the six supported ones gives E_INVALIDARG. A null out-pointer gives S_FALSE. Otherwise a fresh query of that type at revision 0 is created, with S_OK. |
| Query.ConstructedQueriesReturnData | src/d3d10_1/d3d10_1_query.cpp:169-227 | A constructed query's GetData never fails with E_INVALIDARG. |
| AppOptions.GetAppOptions | src/d3d10_1/d3d10_1_options.cpp:7-18 | "Dishonored2.exe" gets exactly {AllowMapFlagNoWait}; every other name gets nothing. |
| AppOptions.LookupIsExact | src/d3d10_1/d3d10_1_options.cpp:13 | A name of the same length differing in any character gets nothing. |
| AppOptions.LowercaseNameGetsNothing | src/d3d10_1/d3d10_1_options.cpp:13 | The match is case sensitive. |
| StateBlock9.D3D9StateBlock.constructor | src/d3d9/d3d9_stateblock.cpp:13-17 | The block starts with no captures, then captures for its type. Capture runs iff the type is not None. |
| StateBlock9.D3D9StateBlock.Capture | src/d3d9/d3d9_stateblock.cpp:40-44 | Records one capture and returns S_OK. |
| StateBlock9.D3D9StateBlock.Apply | src/d3d9/d3d9_stateblock.cpp:47-53 | Records one application made with `applying` set, and ends with it cleared. |
| StateBlock9.D3D9StateBlock.SetVertexDeclaration | src/d3d9/d3d9_stateblock.cpp:56-61 | Stores the declaration and sets its capture flag only. |
| StateBlock9.D3D9StateBlock.SetIndices | src/d3d9/d3d9_stateblock.cpp:64-69 | Stores the index buffer and sets its capture flag only. |
| StateBlock9.D3D9StateBlock.SetRenderState | src/d3d9/d3d9_stateblock.cpp:72-78 | Stores the value, and sets the RenderStates flag and the state's bit. Nothing else changes. |
| StateBlock9.D3D9StateBlock.SetStateSamplerState | src/d3d9/d3d9_stateblock.cpp:81-91 | Stores the value, and sets the SamplerStates flag, the sampler's bit and the (sampler, type) bit. |
| StateBlock9.D3D9StateBlock.SetStreamSource | src/d3d9/d3d9_stateblock.cpp:94-107 | Stores buffer, offset and stride, and marks the stream's vertex-buffer bit. |
| StateBlock9.D3D9StateBlock.SetStreamSourceFreq | src/d3d9/d3d9_stateblock.cpp:110-116 | Stores the setting and marks the stream's frequency bit. |
| StateBlock9.D3D9StateBlock.SetStateTexture | src/d3d9/d3d9_stateblock.cpp:119-125 | Stores the texture and marks its bit. |
| StateBlock9.D3D9StateBlock.SetVertexShader | src/d3d9/d3d9_stateblock.cpp:128-133 | Stores the shader and sets its flag only. |
| StateBlock9.D3D9StateBlock.SetPixelShader | src/d3d9/d3d9_stateblock.cpp:136-141 | Stores the shader and sets its flag only. |
| StateBlock9.D3D9StateBlock.SetMaterial | src/d3d9/d3d9_stateblock.cpp:144-149 | Stores the material and sets its flag only. |
| StateBlock9.D3D9StateBlock.SetStateTransform | src/d3d9/d3d9_stateblock.cpp:152-158 | Stores the matrix and marks the transform's bit. |
| StateBlock9.D3D9StateBlock.SetTextureStageState | src/d3d9/d3d9_stateblock.cpp:161-171 | Stores the value and marks the stage and the (stage, type) bit. |
| StateBlock9.D3D9StateBlock.MultiplyStateTransform | src/d3d9/d3d9_stateblock.cpp:174-180 | Stores the product with the old matrix and marks the transform's bit. |
| StateBlock9.D3D9StateBlock.SetViewport | src/d3d9/d3d9_stateblock.cpp:183-188 | Stores the viewport and sets its flag only. |
| StateBlock9.D3D9StateBlock.SetScissorRect | src/d3d9/d3d9_stateblock.cpp:191-196 | Stores the rectangle and sets its flag only. |
| StateBlock9.D3D9StateBlock.SetClipPlane | src/d3d9/d3d9_stateblock.cpp:199-206 | Stores the four plane values and marks the plane's bit. |
| StateBlock9.MaskedWord | src/d3d9/d3d9_stateblock.cpp:287-298 | Bits outside the mask keep the old word; bits inside take the new bits. |
| StateBlock9.MaskedWordUnique | src/d3d9/d3d9_stateblock.cpp:287-298 | Any word with those two properties is the masked word. |
| StateBlock9.MaskedWordOverwrite | src/d3d9/d3d9_stateblock.cpp:287-298 | A second masked write with the same mask overrides the first. |
| StateBlock9.D3D9StateBlock.SetVertexBoolBitfield | src/d3d9/d3d9_stateblock.cpp:287-291 | Word idx becomes the masked word. No capture flag changes. |
| StateBlock9.D3D9StateBlock.SetPixelBoolBitfield | src/d3d9/d3d9_stateblock.cpp:294-298 | Word idx becomes the masked word. No capture flag changes. |
| StateBlock9.D3D9StateBlock.CapturePixelRenderStates | src/d3d9/d3d9_stateblock.cpp:301-365 | Marks the pixel render states. |
| StateBlock9.D3D9StateBlock.CapturePixelSamplerStates | src/d3d9/d3d9_stateblock.cpp:368-387 | Marks samplers 0-16 with their pixel sampler-state types. |
| StateBlock9.D3D9StateBlock.CapturePixelShaderStates | src/d3d9/d3d9_stateblock.cpp:390-397 | Marks the pixel shader and all its constants. |
| StateBlock9.D3D9StateBlock.CaptureVertexRenderStates | src/d3d9/d3d9_stateblock.cpp:400-448 | Marks the vertex render states. |
| StateBlock9.D3D9StateBlock.CaptureVertexSamplerStates | src/d3d9/d3d9_stateblock.cpp:451-458 | Marks the samplers from 17 on with DMAPOFFSET only. |
| StateBlock9.D3D9StateBlock.CaptureVertexShaderStates | src/d3d9/d3d9_stateblock.cpp:461-468 | Marks the vertex shader and all its constants. |
| StateBlock9.D3D9StateBlock.CapturePixelState | src/d3d9/d3d9_stateblock.cpp:472-481 | Marks the pixel group, every texture stage and every stage state. |
| StateBlock9.D3D9StateBlock.CaptureVertexState | src/d3d9/d3d9_stateblock.cpp:483-493 | Marks the vertex group, the vertex declaration and every stream-frequency bit. |
| StateBlock9.D3D9StateBlock.CaptureType | src/d3d9/d3d9_stateblock.cpp:471-517 | The captures become `CapturedFor(old, type)`, and a capture is recorded iff the type is not None. |
| StateBlock9.Range | src/d3d9/d3d9_stateblock.cpp:495-513 | Exactly the indices in [lo, hi). |
| StateBlock9.MarkRows | src/d3d9/d3d9_stateblock.cpp:368-387 | Rows in [lo, hi) gain the added bits; the others are unchanged. |
| StateBlock9.FillRows | src/d3d9/d3d9_stateblock.cpp:479-480 | Every row becomes the full set. |
| StateBlock9.CapturedFor | src/d3d9/d3d9_stateblock.cpp:471-517 | Type None captures nothing. |
| StateBlock9.MarkRowsIdempotent | src/d3d9/d3d9_stateblock.cpp:368-387 | Marking the same rows twice is marking once. |
| StateBlock9.FillRowsIdempotent | src/d3d9/d3d9_stateblock.cpp:479-480 | Filling twice is filling once. |
| StateBlock9.CaptureTypeIdempotent | src/d3d9/d3d9_stateblock.cpp:471-517 | Capturing a type twice is capturing it once. |
| StateBlock9.AllCaptureIdempotent | src/d3d9/d3d9_stateblock.cpp:471-517 | Capturing All twice is capturing it once, field by field. |
| StateBlock9.MarkRowsCommute | src/d3d9/d3d9_stateblock.cpp:368-458 | The pixel and vertex sampler marks commute. |
| StateBlock9.PixelStateOnlyAdds | src/d3d9/d3d9_stateblock.cpp:472-481 | The pixel capture only adds marks and stays within the block's sizes. |
| StateBlock9.VertexStateOnlyAdds | src/d3d9/d3d9_stateblock.cpp:483-493 | The vertex capture only adds marks and stays within the block's sizes. |
| StateBlock9.AllOnlyOnlyAdds | src/d3d9/d3d9_stateblock.cpp:495-513 | The All-only groups only add marks and stay within the block's sizes. |
| StateBlock9.PixelSamplersWithin | src/d3d9/d3d9_stateblock.cpp:368-387 | Pixel sampler marks stay within the block's sizes. |
| StateBlock9.VertexSamplersWithin | src/d3d9/d3d9_stateblock.cpp:451-458 | Vertex sampler marks stay within the block's sizes. |
| StateBlock9.CaptureTypeOnlyAdds | src/d3d9/d3d9_stateblock.cpp:471-517 | Capturing any type only adds marks and stays within the block's sizes. |
| StateBlock9.PixelStateMarks | src/d3d9/d3d9_stateblock.cpp:472-481 | PixelState marks the pixel render states and samplers 0-16 with their 12 types. It also marks the PS constants and all texture stages and stage states. |
| StateBlock9.VertexStateMarks | src/d3d9/d3d9_stateblock.cpp:483-493 | VertexState marks the vertex render states and samplers from 17 with DMAPOFFSET. It also marks the VS constants, the declaration and every stream frequency. |
| StateBlock9.PixelStateKeeps | src/d3d9/d3d9_stateblock.cpp:472-481 | PixelState leaves the vertex side untouched: the samplers from 17, the VS constants, the stream frequencies and the declaration, plus every group only All marks. |
| StateBlock9.VertexStateKeeps | src/d3d9/d3d9_stateblock.cpp:483-493 | VertexState leaves the pixel side untouched: samplers 0-16, the PS constants and the texture stages and stage states, plus every group only All marks. |
| StateBlock9.AllOnlyGroups | src/d3d9/d3d9_stateblock.cpp:495-513 | Textures, vertex buffers, indices, viewport, scissor, clip planes, transforms and material are marked for All, and untouched for the other types. |
| StateBlock9.AllCoversPixelAndVertex | src/d3d9/d3d9_stateblock.cpp:471-517 | All captures everything PixelState captures and everything VertexState captures. |
| StateBlock9.VertexStateMonotone | src/d3d9/d3d9_stateblock.cpp:483-493 | The vertex capture preserves inclusion of capture masks. |
| DisplayModes.InsertMode | src/dxgi/platform/dxgi_output_win32.cpp:83-93 | Insertion adds exactly the one mode. |
| DisplayModes.InsertModeRated | src/dxgi/platform/dxgi_output_win32.cpp:83-93 | Insertion keeps every refresh denominator positive. |
| DisplayModes.InsertModeSorted | src/dxgi/platform/dxgi_output_win32.cpp:83-93 | Inserting into a sorted list keeps it sorted. |
| DisplayModes.SortModes | src/dxgi/platform/dxgi_output_win32.cpp:83-93 | The result is ordered by width, then height, then integer refresh quotient, and is a permutation of the input. |
| DisplayModes.Win32Matching | src/dxgi/platform/dxgi_output_win32.cpp:58-64 | The filter never adds modes. |
| DisplayModes.Win32MatchingExact | src/dxgi/platform/dxgi_output_win32.cpp:58-64 | A mode is kept, with every copy, iff it is progressive and has the format's bpp. |
| DisplayModes.Win32Descs | src/dxgi/platform/dxgi_output_win32.cpp:66-75 | One description per kept mode. |
| DisplayModes.Win32DescsRated | src/dxgi/platform/dxgi_output_win32.cpp:66-75 | Every description has refresh denominator 1000. |
| DisplayModes.EnumerateWin32 | src/dxgi/platform/dxgi_output_win32.cpp:52-79 | The loop counts the kept modes and, when a list is wanted, lists their descriptions in enumeration order. |
| DisplayModes.CopyOutModes | src/dxgi/platform/dxgi_output_win32.cpp:97-106 | At most min(capacity, count) entries are written. More modes than room gives MORE_DATA with the count unchanged. Otherwise the count is reported, also for a null array. |
| DisplayModes.GetDisplayModeList1Win32 | src/dxgi/platform/dxgi_output_win32.cpp:24-107 | A null count gives INVALID_CALL. UNKNOWN format gives 0 modes with S_OK, and a monitor-info failure E_FAIL. Otherwise the sorted kept modes are copied out as `CopyOutModes` says. |
| DisplayModes.Win32ListedModesFacts | src/dxgi/platform/dxgi_output_win32.cpp:58-93 | Every listed mode describes a kept OS mode with the requested format, progressive ordering, unspecified scaling and refresh {freq·1000, 1000}. |
| DisplayModes.Win32MatchingKept | src/dxgi/platform/dxgi_output_win32.cpp:58-64 | Every mode the filter keeps is an OS mode that passes it. |
| DisplayModes.SdlMatching | src/dxgi/platform/dxgi_output_sdl2.cpp:57-60 | The filter never adds modes. |
| DisplayModes.SdlMatchingExact | src/dxgi/platform/dxgi_output_sdl2.cpp:57-60 | A mode is kept iff its bpp matches; there is no interlace filter. |
| DisplayModes.SdlDescs | src/dxgi/platform/dxgi_output_sdl2.cpp:62-72 | One description per kept mode. |
| DisplayModes.SdlDescsRated | src/dxgi/platform/dxgi_output_sdl2.cpp:62-72 | Every description has refresh denominator 1000. |
| DisplayModes.GetDisplayMode | src/dxgi/platform/dxgi_output_sdl2.cpp:57 | The SDL query returns 0, with the mode, exactly for an index in range. |
| DisplayModes.EnumerateSdlAsWritten | src/dxgi/platform/dxgi_output_sdl2.cpp:50-75 | As written, a display with any mode stops at once with no modes. A display without modes keeps looping. |
| DisplayModes.EnumerateSdl | src/dxgi/platform/dxgi_output_sdl2.cpp:50-75 | The loop that continues while the query succeeds counts and lists exactly the kept modes, in enumeration order. |
| DisplayModes.SdlModeOfDepthListed | src/dxgi/platform/dxgi_output_sdl2.cpp:57-60 | With the corrected loop, a mode of the right depth is listed. |
| DisplayModes.GetDisplayModeList1Sdl | src/dxgi/platform/dxgi_output_sdl2.cpp:34-103 | A null count gives INVALID_CALL and UNKNOWN format 0 modes with S_OK. Otherwise the sorted kept modes of the corrected enumeration of Finding (c) are copied out, with MORE_DATA as in the Win32 version. |
| DisplayModes.Digits | src/dxgi/platform/dxgi_output_sdl2.cpp:17-18 | The decimal form of a number has at least one digit. |
| DisplayModes.DigitsRoundTrip | src/dxgi/platform/dxgi_output_sdl2.cpp:17-18 | Reading the decimal digits back gives the number. |
| DisplayModes.DigitsLength | src/dxgi/platform/dxgi_output_sdl2.cpp:17-18 | A number below 10^k has at most k digits. |
| DisplayModes.MonitorName | src/dxgi/platform/dxgi_output_sdl2.cpp:15-18 | The name starts with "\DISPLAY", followed by the display id. |
| DisplayModes.MonitorNameFits | src/dxgi/platform/dxgi_output_sdl2.cpp:15-20 | For any int display id the name and its NUL fit in 32 characters. |
| DisplayModes.GetMonitorNameAndSize | src/dxgi/platform/dxgi_output_sdl2.cpp:13-31 | Writes the name and a terminating NUL. Gives INVALID_CALL if the desktop mode query fails, and otherwise the rect {0, 0, w, h}. |
| Strings.WcsLen | src/util/platform/util_string_linux.cpp:7-11 | The length is the position of the first NUL. |
| Strings.FromWs | src/util/platform/util_string_linux.cpp:7-11 | The result has one character per wide character before the NUL, each narrowed. |
| Strings.WidenAll | src/util/platform/util_string_linux.cpp:14-21 | One widened character per byte. |
| Strings.TowsAsWritten | src/util/platform/util_string_linux.cpp:14-21 | As written, the vector has the string's length and is all zeros. |
| Strings.Tows | src/util/platform/util_string_linux.cpp:14-21 | The intended result: every character widened. |
| Strings.NarrowWiden | src/util/platform/util_string_linux.cpp:7-21 | Narrowing a widened character gives it back. |
| Strings.FromWsTows | src/util/platform/util_string_linux.cpp:7-21 | A NUL-free string, widened and terminated, converts back to itself. |
| Strings.FromWsStopsAtNul | src/util/platform/util_string_linux.cpp:7-11 | Characters after the first NUL never affect the result. |
| Common.U32 | src/d3d10_1/d3d10_1_context.cpp:1428 | The UINT value of an integer: below 2^32, congruent to it, and equal to it when it is already in range. |
| Common.U64 | src/d3d10_1/d3d10_1_buffer.h:59-61 | The 64-bit unsigned value of an integer: below 2^64, congruent to it, and equal to it when it is already in range. |

## Left out

- Real GPU work is left out. Every `EmitCs` closure is a `Commands.Cmd` value, and what the worker does with it is not modelled. This covers `CopyResource`, `ClearRenderTargetView`, `ClearDepthStencilView`, `GenerateMips` and `ResolveSubresource`, which only record backend work. The texture branch of `UpdateSubresource` (`packImageData` into an image) is left out for the same reason.
- Concurrency is left out: the worker thread, the wait on the worker, the `yield` loop in `WaitForResource`, and the mutexes of the state-object set and the init context. Whether a resource is in use is an input.
- Floating point is not computed. Viewport corners and extents are integers, depths and blend factors are opaque reals, and the D3D9 matrix product is a parameter of `MultiplyStateTransform`.
- Helpers whose bodies are elsewhere are parameters or inputs: format lookup, format info, mip-chain length, block counts, sample-count decoding, address-mode, compare-op and border-colour decoding, and the per-usage memory flags. Also parameters: the state-descriptor hash and equality (modelled as map keys) and `computeResourceSlotId` (slots are indexed directly).
- Shader bytecode is left out. The input signature is a semantic-to-register map, and the warning loop over unused signature entries is not modelled.
- COM reference counting, `QueryInterface`, private data, and the device-container plumbing are left out.
- `SetPredication`, `DrawAuto`, `SetTextFilterSize`/`GetTextFilterSize` and the query `Begin`/`End` stubs on the context side are stubs with no behaviour to model.
- `SOGetTargets` is not modelled. Its index expression `i + pOffsets ? … : 0` does not compute what its layout suggests.
- `GetPredication` and the single-field getters (`IAGetInputLayout`, `VSGetShader`, `RSGetState`, `OMGetBlendState`, ...) are not separate members. They read one field of the snapshot. The range getters are `ContextQueries.SlotRange`.
- `NormalizeDesc` of the blend, depth-stencil and rasterizer states is not modelled. It returns S_OK and changes nothing. `BindToContext` of the depth-stencil and rasterizer states only hands the decoded state over, and is not modelled either.
- `Device.D3D10Device.SOSetTargets`: does not model the per-target offsets, which the context stores nowhere.
- `Device.D3D10Device.InitTexture`: `packImageData` payloads and sizes are not modelled. Only the commands and their count are.
- `Device.D3D10Device.AllocUpdateBufferSlice`: data-buffer alignment inside `DxvkDataBuffer::alloc` is not modelled. Slices are packed back to back.
- `Device.D3D10Device.WaitForResource`: the resource's in-use state is an input. The spin until it becomes idle is not modelled.
- `Query.CreateQuery`: the E_FAIL returned when the query constructor throws is not modelled. Allocating the backend event and query objects is device code outside this model.
- `Views.CreateRenderTargetView`: the E_FAIL returned when the Vulkan device's `createImageView` throws is not modelled. Image-view creation is device code outside this model, so a successful call always yields the view info.
- `Views.CreateDepthStencilViewInfo`: the DSV descriptor's defaulting and normalisation are not modelled. The view info is derived from a given descriptor.
- `Textures.D3D10CommonTexture.Map`: the backend's `mapPtr` and subresource-layout queries are inputs, and only the row pitch of BUFFER mode is computed.
- `Textures.NormalizeTextureProperties`: the full mip count of the extent is an input, not computed.
- `InputLayouts.Align4`: the 32-bit wrap of `align` near 2^32 is not modelled.
- `Common.U32` and `Common.U64` model unsigned wrap-around. `uint32_t` overflow of the display-mode counters (`dstModeId`) is not modelled.
- `StateBlock9.D3D9StateBlock.constructor`: the header's array sizes (sampler, stream, clip-plane and transform counts) are a `Sizes` parameter. The initial values of the recorded state are zeros.
- The `Set*ShaderConstant*` recorders of the state block (`d3d9_stateblock.cpp:209-284`) are not modelled, and neither is `ApplyOrCapture`'s copying between device and block. Both use templates whose bodies are not part of this model.
- The reference counting inside `SetStateTexture` (`TextureChangePrivate`) is not modelled.
- The Win32 `GetMonitorNameAndSize` and the monitor handle casts are operating-system glue. `GetMonitorFormatBpp` is a parameter, and so is SDL's desktop-mode query.
- `std::sort` is modelled by its contract, an ordered permutation. The model's sort is an insertion sort, and the order of equal modes is not claimed.
- `DisplayModes.EnumerateSdlAsWritten`: the as-written loop does not terminate on a display without modes, so it carries a fuel bound. Its contract covers displays with modes and the first step of the others.
- `Strings.Narrow`/`Strings.Widen`: `char` is taken as signed, as on x86 Linux. On AArch64 Linux `char` is unsigned, and that case is not modelled.
- `Copies.CopyRegionCommand`: the destination range of a buffer copy is not checked against the destination's size, as in the source. A resource whose dimension is unknown is outside the model.
- The `D3D10Device` constructor's creation of the default state objects and the backend context are not modelled. The corrected constructor allocates the chunk before recording into it.
- `Device.D3D10Device.AllocUpdateBufferSlice`: replaces a full shared buffer with one of `UpdateBufferSize` bytes. The source replaces it with one of the request's size, so there two 1 KiB updates get two buffers where the model shares one. That as-written allocation is `Device.AllocSharedAsWritten` (Finding f).
- `DisplayModes.GetDisplayModeList1Sdl`: lists the modes of the corrected `EnumerateSdl`. As written, a display with a mode of the requested depth lists none, and a display without modes never finishes. That loop is `DisplayModes.EnumerateSdlAsWritten` (Finding c).
- `InputLayouts.CreateInputLayout`: gives an APPEND_ALIGNED element after a skipped element the offset of the corrected search. As written, `attributes.at(i - j)` throws `std::out_of_range` there, which the `DxvkError` handler does not catch (Finding b).
- `ContextRules.FlippedViewports`: uses the signed flip, and so does `ApplyViewportState`. As written, a viewport whose bottom edge is negative gets a y near 2^32, as `ContextRules.FlipViewportAsWritten` shows (Finding d).
- `Device.D3D10Device.RSSetViewports`: requires at most 16 viewports. The source stores the larger count and then throws `std::out_of_range` from `viewports.at(16)` after writing the first 16; that exception path is not modelled.
- `Device.D3D10Device.RSSetScissorRects`: requires at most 16 rectangles. The source's `scissors.at(16)` throws `std::out_of_range` for more, after storing the count and the first 16; that path is not modelled.

## Findings

| source | as written | input that shows it | evidently intended | confidence | as-written member | corrected member |
|---|---|---|---|---|---|---|
| src/util/platform/util_string_linux.cpp:18 | `std::copy(vec.begin(), vec.end(), wstr.data())` copies the fresh zero vector into the temporary wide string | `tows("ab")` returns `{0, 0}` | copy the widened string into the vector, giving `{'a', 'b'}` | not executed | Strings.TowsAsWritten | Strings.Tows |
| src/d3d10_1/d3d10_1_device.cpp:786-787 | the APPEND_ALIGNED search reads `attributes.at(i - j)` by element position | elements [COLOR (not in the signature), POSITION with APPEND_ALIGNED]: element 1 reads `attributes.at(0)` while the list is still empty, so `at` throws | search the attributes already built, nearest first, so POSITION gets offset 0 | not executed | InputLayouts.AppendAlignedAfterSkippedElementThrows | InputLayouts.CreateInputLayout |
| src/dxgi/platform/dxgi_output_sdl2.cpp:57 | the enumeration loop continues while `SDL_GetDisplayMode(...) != 0` | a display with one mode of the requested depth: the first query returns 0, so the list is empty | continue while the query returns 0, listing every mode of the depth | not executed | DisplayModes.EnumerateSdlAsWritten | DisplayModes.SdlModeOfDepthListed |
| src/d3d10_1/d3d10_1_context.cpp:1428 | `vp.Height + vp.TopLeftY` is evaluated as UINT | TopLeftY = -100, Height = 50 gives y = 4294967246 | the signed bottom edge, y = -50 | not executed | ContextRules.FlipAsWrittenWrapsNegativeBottom | ContextRules.FlipRoundTrip |
| src/d3d10_1/d3d10_1_device.cpp:100-102 | the constructor calls `EmitCs` while `m_csChunk` is still null | any device construction: the first push dereferences the null chunk | allocate an empty chunk before the first `EmitCs` | not executed | Device.ConstructorDereferencesNullChunk | Device.D3D10Device.constructor |
| src/d3d10_1/d3d10_1_context.cpp:1773-1779 | a new shared upload buffer is created with capacity `Size`, the current request | two 1 KiB updates: the second does not fit the 1 KiB buffer, so a second buffer is created | create it with capacity `UpdateBufferSize` so small requests share it | not executed | Device.SharedBufferNeverReusedAsWritten | Device.SharedBufferReused |
