/**
 * `D3D10Device` as an immediate context: the binding snapshot, the command
 * chunk being filled for the backend worker, the chunks already handed to
 * it, the draw counter behind the flush heuristic, the resource-init
 * command counter and the shared upload buffer.
 */
module Device {
  import opened Common
  import opened BufferSlices
  import opened ContextState
  import opened ContextRules
  import C = Commands
  import opened SlotUpdates
  import opened StateCommands
  import AppOptions

  /** Draws recorded before `OMSetRenderTargets` flushes. */
  const MaxPendingDraws: nat := 500
  /** Resource-init commands recorded before they are submitted. */
  const InitCommandThreshold: nat := 50
  /** Requests at least this large get an upload buffer of their own. */
  const UpdateBufferSize: nat := 4 * 1024 * 1024

  /** A `DxvkDataBuffer`: CPU memory for upload payloads, filled front to back. */
  datatype DataBuffer = DataBuffer(id: nat, capacity: nat, used: nat)

  /** A `DxvkDataSlice`: `length` bytes at `offset` in data buffer `buffer`. */
  datatype DataSlice = DataSlice(buffer: nat, offset: nat, length: nat)

  /**
   * The shared-buffer branch of `AllocUpdateBufferSlice` (requests below
   * `UpdateBufferSize`), with the capacity a newly created buffer gets as a
   * parameter: the request is carved from the current buffer when it fits,
   * otherwise from a new buffer `freshId`.
   */
  function AllocShared(cur: Option<DataBuffer>, size: nat, freshId: nat, freshCapacity: nat): (r: (DataBuffer, DataSlice))
    requires size <= freshCapacity
    requires cur.Some? ==> cur.value.used <= cur.value.capacity
    ensures r.0.used <= r.0.capacity
    ensures r.1.buffer == r.0.id && r.1.length == size && r.1.offset + size == r.0.used
    ensures cur.Some? && cur.value.used + size <= cur.value.capacity
      ==> r.0 == cur.value.(used := cur.value.used + size) && r.1.offset == cur.value.used
    ensures !(cur.Some? && cur.value.used + size <= cur.value.capacity)
      ==> r.0 == DataBuffer(freshId, freshCapacity, size) && r.1.offset == 0
  {
    if cur.Some? && cur.value.used + size <= cur.value.capacity then
      (cur.value.(used := cur.value.used + size), DataSlice(cur.value.id, cur.value.used, size))
    else
      (DataBuffer(freshId, freshCapacity, size), DataSlice(freshId, 0, size))
  }

  /** `AllocUpdateBufferSlice`'s shared branch as written: a new buffer is only as large as the request. */
  function AllocSharedAsWritten(cur: Option<DataBuffer>, size: nat, freshId: nat): (r: (DataBuffer, DataSlice))
    requires cur.Some? ==> cur.value.used <= cur.value.capacity
    ensures r.1.length == size && r.1.buffer == r.0.id
  {
    AllocShared(cur, size, freshId, size)
  }

  /**
   * As written, the "shared" buffer is never shared: the first small
   * request fills a buffer created at exactly its size, so the next
   * non-empty request always gets another new buffer.
   */
  lemma SharedBufferNeverReusedAsWritten(size1: nat, size2: nat)
    requires 0 < size1 < UpdateBufferSize && 0 < size2 < UpdateBufferSize
    ensures AllocSharedAsWritten(None, size1, 0).0 == DataBuffer(0, size1, size1)
    ensures AllocSharedAsWritten(Some(AllocSharedAsWritten(None, size1, 0).0), size2, 1).0.id == 1
  {
  }

  /**
   * With the intended capacity, consecutive small requests share one
   * buffer and receive adjacent, non-overlapping slices.
   */
  lemma SharedBufferReused(size1: nat, size2: nat)
    requires size1 + size2 <= UpdateBufferSize
    ensures var (b1, s1) := AllocShared(None, size1, 0, UpdateBufferSize);
            var (b2, s2) := AllocShared(Some(b1), size2, 1, UpdateBufferSize);
            b2.id == 0 && s1.offset + s1.length == s2.offset
  {
  }

  /** The chunk slot as declared: a reference that is null until a chunk is allocated. */
  datatype ChunkSlot = NullChunk | Chunk(commands: seq<C.Cmd>)

  /** Pushing through the slot: dereferencing the null slot is a crash (`None`). */
  function PushThroughSlot(slot: ChunkSlot, c: C.Cmd): (r: Option<ChunkSlot>)
    ensures r.None? <==> slot.NullChunk?
    ensures r.Some? ==> slot.Chunk? && r.value == Chunk(slot.commands + [c])
  {
    match slot
    case NullChunk => None
    case Chunk(commands) => Some(Chunk(commands + [c]))
  }

  /**
   * The constructor as written: it emits the begin-recording command while
   * the chunk slot still holds its default, null value.
   */
  function ConstructorAsWritten(): Option<ChunkSlot>
  {
    PushThroughSlot(NullChunk, C.BeginRecording)
  }

  /**
   * The first emit of a freshly constructed device dereferences the null
   * chunk; with a chunk allocated first, as `D3D10Device`'s constructor
   * does, the same emit yields the one-command chunk.
   */
  lemma ConstructorDereferencesNullChunk()
    ensures ConstructorAsWritten().None?
    ensures PushThroughSlot(Chunk([]), C.BeginRecording) == Some(Chunk([C.BeginRecording]))
  {
    assert [] + [C.BeginRecording] == [C.BeginRecording];
  }

  class D3D10Device {
    var state: CtxState
    /** The chunk being filled (`m_csChunk`); it holds at most `chunkCapacity` commands. */
    var chunk: seq<C.Cmd>
    /** The chunks handed to the worker, oldest first. */
    var dispatched: seq<seq<C.Cmd>>
    const chunkCapacity: nat
    var drawCount: nat
    var csIsBusy: bool
    var resourceInitCommands: nat
    /** How many times the resource-init command list has been submitted. */
    var initSubmissions: nat
    var updateBuffer: Option<DataBuffer>
    /** Data buffers created so far; the next one gets this number as its id. */
    var dataBuffersCreated: nat
    const allowMapFlagNoWait: bool

    /** Every command recorded so far, in order: the dispatched chunks, then the open one. */
    ghost function Commands(): seq<C.Cmd>
      reads this`chunk, this`dispatched
    {
      C.Flatten(dispatched) + chunk
    }

    ghost predicate ChunksValid()
      reads this`chunk, this`dispatched
    {
      chunkCapacity >= 1 && |chunk| <= chunkCapacity
      && forall k :: 0 <= k < |dispatched| ==> 1 <= |dispatched[k]| <= chunkCapacity
    }

    ghost predicate Valid()
      reads this
    {
      ChunksValid() && WellFormed(state)
      && drawCount < TwoTo32
      && (drawCount > 0 ==> csIsBusy || chunk != [])
      && resourceInitCommands < InitCommandThreshold
      && (updateBuffer.Some? ==> updateBuffer.value.used <= updateBuffer.value.capacity
                                 && updateBuffer.value.id < dataBuffersCreated)
    }

    /**
     * A new device: default snapshot, no draws, worker idle, and the
     * begin-recording command as the first command of a freshly allocated
     * chunk. The workaround option comes from the executable's name.
     */
    constructor (appName: string, capacity: nat)
      requires capacity >= 1
      ensures Valid()
      ensures state == DefaultState() && chunkCapacity == capacity
      ensures Commands() == [C.BeginRecording] && dispatched == []
      ensures drawCount == 0 && !csIsBusy && resourceInitCommands == 0 && updateBuffer.None?
      ensures allowMapFlagNoWait <==> AppOptions.AllowMapFlagNoWait in AppOptions.GetAppOptions(appName)
    {
      state := DefaultState();
      chunk := [];
      dispatched := [];
      chunkCapacity := capacity;
      drawCount := 0;
      csIsBusy := false;
      resourceInitCommands := 0;
      initSubmissions := 0;
      updateBuffer := None;
      dataBuffersCreated := 0;
      allowMapFlagNoWait := AppOptions.AllowMapFlagNoWait in AppOptions.GetAppOptions(appName);
      new;
      EmitCs(C.BeginRecording);
    }

    // ---- Command stream ----------------------------------------------------

    /** Hands a chunk to the worker, which is then busy. */
    method EmitCsChunk(ch: seq<C.Cmd>)
      requires ChunksValid() && 1 <= |ch| <= chunkCapacity
      modifies this`dispatched, this`csIsBusy
      ensures ChunksValid()
      ensures dispatched == old(dispatched) + [ch] && csIsBusy
    {
      dispatched := dispatched + [ch];
      csIsBusy := true;
    }

    /**
     * Records one command: into the open chunk if it has room, otherwise
     * the full chunk is dispatched and the command opens a new one. Either
     * way the command is appended exactly once, after everything before it.
     */
    method EmitCs(c: C.Cmd)
      requires ChunksValid()
      modifies this`chunk, this`dispatched, this`csIsBusy
      ensures ChunksValid() && chunk != []
      ensures Commands() == old(Commands()) + [c]
      ensures |old(chunk)| < chunkCapacity ==> chunk == old(chunk) + [c] && dispatched == old(dispatched) && csIsBusy == old(csIsBusy)
      ensures |old(chunk)| == chunkCapacity ==> dispatched == old(dispatched) + [old(chunk)] && chunk == [c] && csIsBusy
    {
      if |chunk| < chunkCapacity {
        chunk := chunk + [c];
      } else {
        EmitCsChunk(chunk);
        C.FlattenPush(old(dispatched), old(chunk));
        chunk := [c];
      }
    }

    /** Dispatches the open chunk unless it is empty; no command is added or lost. */
    method FlushCsChunk()
      requires ChunksValid()
      modifies this`chunk, this`dispatched, this`csIsBusy
      ensures ChunksValid() && chunk == [] && Commands() == old(Commands())
      ensures old(chunk) == [] ==> dispatched == old(dispatched) && csIsBusy == old(csIsBusy)
      ensures old(chunk) != [] ==> dispatched == old(dispatched) + [old(chunk)] && csIsBusy
    {
      if chunk != [] {
        EmitCsChunk(chunk);
        C.FlattenPush(old(dispatched), old(chunk));
        chunk := [];
      }
    }

    /** Dispatches the open chunk; waiting for the worker is not modelled. */
    method SynchronizeCsThread()
      requires ChunksValid()
      modifies this`chunk, this`dispatched, this`csIsBusy
      ensures ChunksValid() && chunk == [] && Commands() == old(Commands())
      ensures old(chunk) == [] ==> dispatched == old(dispatched) && csIsBusy == old(csIsBusy)
      ensures old(chunk) != [] ==> csIsBusy
    {
      FlushCsChunk();
    }

    // ---- Resource-init context ---------------------------------------------

    method SubmitResourceInitCommands()
      modifies this`resourceInitCommands, this`initSubmissions
      ensures resourceInitCommands == 0 && initSubmissions == old(initSubmissions) + 1
    {
      initSubmissions := initSubmissions + 1;
      resourceInitCommands := 0;
    }

    /**
     * Counts `n` more init commands and submits them once at least
     * `InitCommandThreshold` are pending, so fewer than that stay pending.
     */
    method UnlockResourceInitContext(n: nat)
      requires resourceInitCommands < InitCommandThreshold
      modifies this`resourceInitCommands, this`initSubmissions
      ensures resourceInitCommands < InitCommandThreshold
      ensures old(resourceInitCommands) + n >= InitCommandThreshold
        ==> resourceInitCommands == 0 && initSubmissions == old(initSubmissions) + 1
      ensures old(resourceInitCommands) + n < InitCommandThreshold
        ==> resourceInitCommands == old(resourceInitCommands) + n && initSubmissions == old(initSubmissions)
    {
      resourceInitCommands := resourceInitCommands + n;
      if resourceInitCommands >= InitCommandThreshold {
        SubmitResourceInitCommands();
      }
    }

    /** Submits pending init commands, if any, so that none are pending. */
    method FlushInitContext()
      requires resourceInitCommands < InitCommandThreshold
      modifies this`resourceInitCommands, this`initSubmissions
      ensures resourceInitCommands == 0
      ensures initSubmissions == old(initSubmissions) + (if old(resourceInitCommands) != 0 then 1 else 0)
    {
      if resourceInitCommands != 0 {
        SubmitResourceInitCommands();
      }
      UnlockResourceInitContext(0);
    }

    /** A buffer with initial data costs one init command; one without costs nothing. */
    method InitBuffer(hasData: bool)
      requires resourceInitCommands < InitCommandThreshold
      modifies this`resourceInitCommands, this`initSubmissions
      ensures resourceInitCommands < InitCommandThreshold
      ensures !hasData ==> resourceInitCommands == old(resourceInitCommands) && initSubmissions == old(initSubmissions)
      ensures hasData && old(resourceInitCommands) + 1 < InitCommandThreshold
        ==> resourceInitCommands == old(resourceInitCommands) + 1 && initSubmissions == old(initSubmissions)
      ensures hasData && old(resourceInitCommands) + 1 >= InitCommandThreshold
        ==> resourceInitCommands == 0 && initSubmissions == old(initSubmissions) + 1
    {
      if hasData {
        UnlockResourceInitContext(1);
      }
    }

    /**
     * A texture with initial data uploads every subresource, layer by layer
     * and mip by mip, reading the application's entry `level + layer * mips`;
     * those indices are exactly 0, 1, ..., layers * mips - 1 in order. The
     * upload counts as `layers * mips` init commands (a UINT product); a
     * texture without data is cleared with one command.
     */
    method InitTexture(hasData: bool, layers: nat, mips: nat) returns (ids: seq<nat>)
      requires resourceInitCommands < InitCommandThreshold
      modifies this`resourceInitCommands, this`initSubmissions
      ensures resourceInitCommands < InitCommandThreshold
      ensures hasData ==> |ids| == layers * mips && forall k :: 0 <= k < |ids| ==> ids[k] == k
      ensures !hasData ==> ids == []
      ensures var n := if hasData then U32(layers * mips) else 1;
        old(resourceInitCommands) + n < InitCommandThreshold
        ==> resourceInitCommands == old(resourceInitCommands) + n && initSubmissions == old(initSubmissions)
      ensures var n := if hasData then U32(layers * mips) else 1;
        old(resourceInitCommands) + n >= InitCommandThreshold
        ==> resourceInitCommands == 0 && initSubmissions == old(initSubmissions) + 1
    {
      ids := [];
      if hasData {
        var layer := 0;
        while layer < layers
          invariant 0 <= layer <= layers
          invariant |ids| == layer * mips
          invariant forall k :: 0 <= k < |ids| ==> ids[k] == k
        {
          var level := 0;
          while level < mips
            invariant 0 <= level <= mips
            invariant |ids| == layer * mips + level
            invariant forall k :: 0 <= k < |ids| ==> ids[k] == k
          {
            ids := ids + [level + layer * mips];
            level := level + 1;
          }
          layer := layer + 1;
        }
        UnlockResourceInitContext(U32(layers * mips));
      } else {
        UnlockResourceInitContext(1);
      }
    }

    // ---- Flush and synchronisation ------------------------------------------

    /**
     * Submits pending init commands; then, if the worker is busy or commands
     * are waiting, records the submission and hands everything recorded so
     * far to the worker, resetting the draw counter and the busy flag.
     */
    method Flush()
      requires Valid()
      modifies this`chunk, this`dispatched, this`csIsBusy, this`drawCount, this`resourceInitCommands, this`initSubmissions
      ensures Valid()
      ensures resourceInitCommands == 0
      ensures initSubmissions == old(initSubmissions) + (if old(resourceInitCommands) != 0 then 1 else 0)
      ensures old(csIsBusy) || old(chunk) != [] ==>
        C.Flatten(dispatched) == old(Commands()) + [C.SubmitCommandList] && chunk == [] && drawCount == 0 && !csIsBusy
      ensures !(old(csIsBusy) || old(chunk) != []) ==>
        chunk == old(chunk) && dispatched == old(dispatched) && drawCount == old(drawCount) && !csIsBusy
      ensures Commands() == old(Commands()) + (if old(csIsBusy) || old(chunk) != [] then [C.SubmitCommandList] else [])
    {
      FlushInitContext();
      if csIsBusy || chunk != [] {
        SubmitAndDispatch();
        drawCount := 0;
        csIsBusy := false;
      }
    }

    /** Records a command-list submission and hands every recorded chunk to the worker. */
    method SubmitAndDispatch()
      requires ChunksValid()
      modifies this`chunk, this`dispatched, this`csIsBusy
      ensures ChunksValid() && chunk == []
      ensures Commands() == old(Commands()) + [C.SubmitCommandList]
      ensures C.Flatten(dispatched) == Commands()
    {
      EmitCs(C.SubmitCommandList);
      FlushCsChunk();
      assert Commands() == C.Flatten(dispatched) + [];
    }

    /**
     * Flushes, then reports whether a map may go ahead: false exactly when
     * the resource is still in use and DO_NOT_WAIT survives, which needs the
     * application's `AllowMapFlagNoWait` workaround; otherwise the source
     * waits until the resource is idle and reports true.
     */
    method WaitForResource(inUse: bool, doNotWait: bool) returns (ok: bool)
      requires Valid()
      modifies this`chunk, this`dispatched, this`csIsBusy, this`drawCount, this`resourceInitCommands, this`initSubmissions
      ensures Valid()
      ensures ok <==> !(inUse && doNotWait && allowMapFlagNoWait)
      ensures chunk == [] && !csIsBusy && resourceInitCommands == 0
      ensures C.Flatten(dispatched) == Commands()
      ensures Commands() == old(Commands()) + (if old(csIsBusy) || old(chunk) != [] then [C.SubmitCommandList] else [])
    {
      var noWait := doNotWait && allowMapFlagNoWait;
      Flush();
      SynchronizeCsThread();
      if inUse && noWait {
        return false;
      }
      return true;
    }

    // ---- Upload memory -------------------------------------------------------

    /**
     * A slice of `size` bytes of upload memory: a dedicated buffer for
     * requests of at least `UpdateBufferSize` bytes, otherwise carved from
     * the shared buffer, which is replaced by a new `UpdateBufferSize`-byte
     * one when the request does not fit.
     */
    method AllocUpdateBufferSlice(size: nat) returns (slice: DataSlice)
      requires Valid()
      modifies this`updateBuffer, this`dataBuffersCreated
      ensures Valid()
      ensures slice.length == size
      ensures size >= UpdateBufferSize ==> slice == DataSlice(old(dataBuffersCreated), 0, size) && updateBuffer == old(updateBuffer)
      ensures size < UpdateBufferSize ==>
        (updateBuffer.Some? && (updateBuffer.value, slice) == AllocShared(old(updateBuffer), size, old(dataBuffersCreated), UpdateBufferSize))
      ensures size < UpdateBufferSize ==> updateBuffer.Some? && slice.offset + size == updateBuffer.value.used <= updateBuffer.value.capacity
    {
      if size >= UpdateBufferSize {
        slice := DataSlice(dataBuffersCreated, 0, size);
        dataBuffersCreated := dataBuffersCreated + 1;
      } else {
        var r := AllocShared(updateBuffer, size, dataBuffersCreated, UpdateBufferSize);
        if r.0.id == dataBuffersCreated {
          dataBuffersCreated := dataBuffersCreated + 1;
        }
        updateBuffer := Some(r.0);
        slice := r.1;
      }
    }

    // ---- Draws ---------------------------------------------------------------

    /** Records a draw command and counts it in the wrapping 32-bit draw counter. */
    method RecordDraw(c: C.Cmd)
      requires Valid()
      modifies this`chunk, this`dispatched, this`csIsBusy, this`drawCount
      ensures Valid()
      ensures Commands() == old(Commands()) + [c]
      ensures drawCount == U32(old(drawCount) + 1)
    {
      EmitCs(c);
      assert chunk != [];
      if drawCount + 1 < TwoTo32 {
        drawCount := drawCount + 1;
      } else {
        assert U32(TwoTo32) == 0;
        drawCount := 0;
      }
    }

    method Draw(vertexCount: nat, startVertex: nat)
      requires Valid()
      modifies this`chunk, this`dispatched, this`csIsBusy, this`drawCount
      ensures Valid()
      ensures Commands() == old(Commands()) + [C.Draw(vertexCount, 1, startVertex, 0)]
      ensures drawCount == U32(old(drawCount) + 1)
    {
      RecordDraw(C.Draw(vertexCount, 1, startVertex, 0));
    }

    method DrawIndexed(indexCount: nat, startIndex: nat, baseVertex: int)
      requires Valid()
      modifies this`chunk, this`dispatched, this`csIsBusy, this`drawCount
      ensures Valid()
      ensures Commands() == old(Commands()) + [C.DrawIndexed(indexCount, 1, startIndex, baseVertex, 0)]
      ensures drawCount == U32(old(drawCount) + 1)
    {
      RecordDraw(C.DrawIndexed(indexCount, 1, startIndex, baseVertex, 0));
    }

    method DrawInstanced(vertexCountPerInstance: nat, instanceCount: nat, startVertex: nat, startInstance: nat)
      requires Valid()
      modifies this`chunk, this`dispatched, this`csIsBusy, this`drawCount
      ensures Valid()
      ensures Commands() == old(Commands()) + [C.Draw(vertexCountPerInstance, instanceCount, startVertex, startInstance)]
      ensures drawCount == U32(old(drawCount) + 1)
    {
      RecordDraw(C.Draw(vertexCountPerInstance, instanceCount, startVertex, startInstance));
    }

    method DrawIndexedInstanced(indexCountPerInstance: nat, instanceCount: nat, startIndex: nat, baseVertex: int, startInstance: nat)
      requires Valid()
      modifies this`chunk, this`dispatched, this`csIsBusy, this`drawCount
      ensures Valid()
      ensures Commands() == old(Commands()) + [C.DrawIndexed(indexCountPerInstance, instanceCount, startIndex, baseVertex, startInstance)]
      ensures drawCount == U32(old(drawCount) + 1)
    {
      RecordDraw(C.DrawIndexed(indexCountPerInstance, instanceCount, startIndex, baseVertex, startInstance));
    }

    // ---- Apply / Bind helpers ------------------------------------------------

    method ApplyInputLayout()
      requires Valid()
      modifies this`chunk, this`dispatched, this`csIsBusy
      ensures Valid() && Commands() == old(Commands()) + [InputLayoutCmd(state)]
    {
      EmitCs(InputLayoutCmd(state));
    }

    method ApplyPrimitiveTopology()
      requires Valid()
      modifies this`chunk, this`dispatched, this`csIsBusy
      ensures Valid() && Commands() == old(Commands()) + TopologyCmds(state)
    {
      var ia := InputAssemblyFor(state.ia.primitiveTopology);
      if ia.Some? {
        EmitCs(C.SetInputAssemblyState(ia.value));
      }
    }

    method ApplyBlendState()
      requires Valid()
      modifies this`chunk, this`dispatched, this`csIsBusy
      ensures Valid() && Commands() == old(Commands()) + [BlendStateCmd(state)]
    {
      EmitCs(BlendStateCmd(state));
    }

    method ApplyBlendFactor()
      requires Valid()
      modifies this`chunk, this`dispatched, this`csIsBusy
      ensures Valid() && Commands() == old(Commands()) + [BlendFactorCmd(state)]
    {
      EmitCs(BlendFactorCmd(state));
    }

    method ApplyDepthStencilState()
      requires Valid()
      modifies this`chunk, this`dispatched, this`csIsBusy
      ensures Valid() && Commands() == old(Commands()) + [DepthStencilStateCmd(state)]
    {
      EmitCs(DepthStencilStateCmd(state));
    }

    method ApplyStencilRef()
      requires Valid()
      modifies this`chunk, this`dispatched, this`csIsBusy
      ensures Valid() && Commands() == old(Commands()) + [StencilRefCmd(state)]
    {
      EmitCs(StencilRefCmd(state));
    }

    method ApplyRasterizerState()
      requires Valid()
      modifies this`chunk, this`dispatched, this`csIsBusy
      ensures Valid() && Commands() == old(Commands()) + [RasterizerStateCmd(state)]
    {
      EmitCs(RasterizerStateCmd(state));
    }

    method ApplyViewportState()
      requires Valid()
      modifies this`chunk, this`dispatched, this`csIsBusy
      ensures Valid() && Commands() == old(Commands()) + ViewportCmds(state.rs)
    {
      if state.rs.numViewports != 0 {
        EmitCs(C.SetViewports(state.rs.numViewports, FlippedViewports(state.rs), ScissorRects(state.rs)));
      }
    }

    method BindFramebuffer()
      requires Valid()
      modifies this`chunk, this`dispatched, this`csIsBusy
      ensures Valid() && Commands() == old(Commands()) + [FramebufferCmd(state)]
      ensures csIsBusy <==> old(csIsBusy) || |old(chunk)| == chunkCapacity
    {
      EmitCs(FramebufferCmd(state));
    }

    /** One `bindShader` for the stage, carrying the null shader when none is given. */
    method BindShader(st: Stage, shader: Handle)
      requires Valid()
      modifies this`chunk, this`dispatched, this`csIsBusy
      ensures Valid() && Commands() == old(Commands()) + [C.BindShader(st, shader)]
    {
      EmitCs(C.BindShader(st, shader));
    }

    method BindVertexBuffer(slot: nat, buffer: BufferRef, offset: nat, stride: nat)
      requires Valid()
      modifies this`chunk, this`dispatched, this`csIsBusy
      ensures Valid() && Commands() == old(Commands()) + [VertexBufferCmd(slot, VbBinding(buffer, offset, stride))]
    {
      EmitCs(VertexBufferCmd(slot, VbBinding(buffer, offset, stride)));
    }

    method BindIndexBuffer(buffer: BufferRef, offset: nat, format: nat)
      requires Valid()
      modifies this`chunk, this`dispatched, this`csIsBusy
      ensures Valid() && Commands() == old(Commands()) + [IndexBufferCmd(IbBinding(buffer, offset, format))]
    {
      EmitCs(IndexBufferCmd(IbBinding(buffer, offset, format)));
    }

    method BindConstantBuffer(st: Stage, slot: nat, b: CbBinding)
      requires Valid()
      modifies this`chunk, this`dispatched, this`csIsBusy
      ensures Valid() && Commands() == old(Commands()) + [ConstantBufferCmd(st, slot, b)]
    {
      EmitCs(ConstantBufferCmd(st, slot, b));
    }

    method BindSampler(st: Stage, slot: nat, sampler: Handle)
      requires Valid()
      modifies this`chunk, this`dispatched, this`csIsBusy
      ensures Valid() && Commands() == old(Commands()) + [C.BindSampler(st, slot, sampler)]
    {
      EmitCs(C.BindSampler(st, slot, sampler));
    }

    method BindShaderResource(st: Stage, slot: nat, view: Handle)
      requires Valid()
      modifies this`chunk, this`dispatched, this`csIsBusy
      ensures Valid() && Commands() == old(Commands()) + [C.BindShaderResource(st, slot, view)]
    {
      EmitCs(C.BindShaderResource(st, slot, view));
    }

    // ---- Input assembler -------------------------------------------------------

    /** Stores the layout and records it only when it differs from the bound one. */
    method IASetInputLayout(layout: Handle)
      requires Valid()
      modifies this`state, this`chunk, this`dispatched, this`csIsBusy
      ensures Valid()
      ensures state == old(state).(ia := old(state).ia.(inputLayout := layout))
      ensures Commands() == old(Commands()) + (if old(state).ia.inputLayout != layout then [InputLayoutCmd(state)] else [])
    {
      if state.ia.inputLayout != layout {
        state := state.(ia := state.ia.(inputLayout := layout));
        ApplyInputLayout();
      }
    }

    /** Stores the topology and, when it changes, records its input-assembly state (none for UNDEFINED). */
    method IASetPrimitiveTopology(topology: nat)
      requires Valid()
      modifies this`state, this`chunk, this`dispatched, this`csIsBusy
      ensures Valid()
      ensures state == old(state).(ia := old(state).ia.(primitiveTopology := topology))
      ensures Commands() == old(Commands()) + (if old(state).ia.primitiveTopology != topology then TopologyCmds(state) else [])
    {
      if state.ia.primitiveTopology != topology {
        state := state.(ia := state.ia.(primitiveTopology := topology));
        ApplyPrimitiveTopology();
      }
    }

    /** Stores each buffer, offset and stride in its slot and records a bind for every slot, changed or not. */
    method IASetVertexBuffers(start: nat, buffers: seq<BufferRef>, strides: seq<nat>, offsets: seq<nat>)
      requires Valid()
      requires start + |buffers| <= VertexBufferSlots
      requires |buffers| <= |strides| && |buffers| <= |offsets|
      modifies this`state, this`chunk, this`dispatched, this`csIsBusy
      ensures Valid()
      ensures state == old(state).(ia := old(state).ia.(vertexBuffers := Splice(old(state).ia.vertexBuffers, start, VbBindings(buffers, strides, offsets))))
      ensures Commands() == old(Commands()) + RangeBinds(start, VbBindings(buffers, strides, offsets), VertexBufferCmd)
    {
      var nw := VbBindings(buffers, strides, offsets);
      ghost var s0 := state;
      ghost var pre := Commands();
      assert nw[..0] == [];
      assert Splice(s0.ia.vertexBuffers, start, []) == s0.ia.vertexBuffers;
      var i := 0;
      while i < |nw|
        invariant 0 <= i <= |nw| && Valid()
        invariant state == s0.(ia := s0.ia.(vertexBuffers := Splice(s0.ia.vertexBuffers, start, nw[..i])))
        invariant Commands() == pre + RangeBinds(start, nw[..i], VertexBufferCmd)
      {
        SetVertexBufferSlot(s0, start, nw, i, pre);
        i := i + 1;
      }
      assert nw[..|nw|] == nw;
    }

    /** One slot of `IASetVertexBuffers`: stores `nw[i]` in slot `start + i` and records its bind. */
    method SetVertexBufferSlot(ghost s0: CtxState, start: nat, nw: seq<VbBinding>, i: nat, ghost pre: seq<C.Cmd>)
      requires Valid() && i < |nw| && start + |nw| <= |s0.ia.vertexBuffers|
      requires state == s0.(ia := s0.ia.(vertexBuffers := Splice(s0.ia.vertexBuffers, start, nw[..i])))
      requires Commands() == pre + RangeBinds(start, nw[..i], VertexBufferCmd)
      modifies this`state, this`chunk, this`dispatched, this`csIsBusy
      ensures Valid()
      ensures state == s0.(ia := s0.ia.(vertexBuffers := Splice(s0.ia.vertexBuffers, start, nw[..i + 1])))
      ensures Commands() == pre + RangeBinds(start, nw[..i + 1], VertexBufferCmd)
    {
      SpliceSnoc(s0.ia.vertexBuffers, start, nw, i);
      RangeBindsSnoc(start, nw, i, VertexBufferCmd);
      state := state.(ia := state.ia.(vertexBuffers := state.ia.vertexBuffers[start + i := nw[i]]));
      BindVertexBuffer(start + i, nw[i].buffer, nw[i].offset, nw[i].stride);
    }

    /** Stores the index buffer binding and records it, unconditionally. */
    method IASetIndexBuffer(buffer: BufferRef, format: nat, offset: nat)
      requires Valid()
      modifies this`state, this`chunk, this`dispatched, this`csIsBusy
      ensures Valid()
      ensures state == old(state).(ia := old(state).ia.(indexBuffer := IbBinding(buffer, offset, format)))
      ensures Commands() == old(Commands()) + [IndexBufferCmd(state.ia.indexBuffer)]
    {
      state := state.(ia := state.ia.(indexBuffer := IbBinding(buffer, offset, format)));
      BindIndexBuffer(buffer, offset, format);
    }

    // ---- Shader stages -------------------------------------------------------

    /** `VSSetShader`, `GSSetShader`, `PSSetShader`: store the shader and record it only on change. */
    method SetShader(st: Stage, shader: Handle)
      requires Valid()
      modifies this`state, this`chunk, this`dispatched, this`csIsBusy
      ensures Valid()
      ensures state == WithStage(old(state), st, StageOf(old(state), st).(shader := shader))
      ensures Commands() == old(Commands()) + (if StageOf(old(state), st).shader != shader then [ShaderCmd(state, st)] else [])
    {
      if StageOf(state, st).shader != shader {
        state := WithStage(state, st, StageOf(state, st).(shader := shader));
        BindShader(st, shader);
      } else {
        assert WithStage(state, st, StageOf(state, st).(shader := shader)) == state by {
          match st
          case Vertex =>
          case Geometry =>
          case Pixel =>
        }
      }
    }

    /**
     * One slot of the shared slot loop: writes `nw[i]` into slot
     * `start + i` and records `bind`'s command when the stored value
     * differs, extending the commands recorded since `pre` by that slot.
     */
    method WriteSlot<T(==)>(cur: seq<T>, start: nat, nw: seq<T>, i: nat, bind: (nat, T) -> C.Cmd, slots: seq<T>, ghost pre: seq<C.Cmd>)
      returns (next: seq<T>)
      requires ChunksValid() && start + |nw| <= |cur| && i < |nw|
      requires slots == Splice(cur, start, nw[..i])
      requires Commands() == pre + ChangedBinds(cur, start, nw[..i], bind)
      modifies this`chunk, this`dispatched, this`csIsBusy
      ensures ChunksValid()
      ensures old(csIsBusy || chunk != []) ==> csIsBusy || chunk != []
      ensures next == Splice(cur, start, nw[..i + 1])
      ensures Commands() == pre + ChangedBinds(cur, start, nw[..i + 1], bind)
    {
      SpliceSnoc(cur, start, nw, i);
      ChangedBindsSnoc(cur, start, nw, i, bind);
      assert slots[start + i] == cur[start + i];
      if slots[start + i] != nw[i] {
        EmitCs(bind(start + i, nw[i]));
      }
      next := slots[start + i := nw[i]];
    }

    /**
     * The loop the three slot setters share: writes `nw` over `cur` from
     * `start` and records `bind`'s command for each slot whose value
     * changes, in slot order.
     */
    method WriteSlots<T(==)>(cur: seq<T>, start: nat, nw: seq<T>, bind: (nat, T) -> C.Cmd) returns (slots: seq<T>)
      requires ChunksValid() && start + |nw| <= |cur|
      modifies this`chunk, this`dispatched, this`csIsBusy
      ensures ChunksValid()
      ensures old(csIsBusy || chunk != []) ==> csIsBusy || chunk != []
      ensures slots == Splice(cur, start, nw)
      ensures Commands() == old(Commands()) + ChangedBinds(cur, start, nw, bind)
    {
      slots := cur;
      assert nw[..0] == [];
      assert Splice(cur, start, []) == cur;
      ghost var pre := Commands();
      var i := 0;
      while i < |nw|
        invariant 0 <= i <= |nw| && ChunksValid()
        invariant old(csIsBusy || chunk != []) ==> csIsBusy || chunk != []
        invariant slots == Splice(cur, start, nw[..i])
        invariant Commands() == pre + ChangedBinds(cur, start, nw[..i], bind)
      {
        slots := WriteSlot(cur, start, nw, i, bind, slots, pre);
        i := i + 1;
      }
      assert nw[..|nw|] == nw;
    }

    /**
     * The per-stage `*SetConstantBuffers`: writes the computed bindings over
     * the stage's slots from `start` and records a bind only for the slots
     * whose buffer or constant range changes.
     */
    method SetConstantBuffers(st: Stage, start: nat, buffers: seq<BufferRef>, firstConstant: Option<seq<nat>>, numConstants: Option<seq<nat>>)
      requires Valid()
      requires start + |buffers| <= ConstantBufferSlots
      requires firstConstant.Some? ==> |buffers| <= |firstConstant.value|
      requires numConstants.Some? ==> |buffers| <= |numConstants.value|
      modifies this`state, this`chunk, this`dispatched, this`csIsBusy
      ensures Valid()
      ensures var cur := StageOf(old(state), st).constantBuffers;
              var nw := CbBindings(buffers, firstConstant, numConstants);
              state == WithStage(old(state), st, StageOf(old(state), st).(constantBuffers := Splice(cur, start, nw)))
              && Commands() == old(Commands()) + ChangedBinds(cur, start, nw, CbBinder(st))
    {
      var ss := StageOf(state, st);
      var slots := WriteSlots(ss.constantBuffers, start, CbBindings(buffers, firstConstant, numConstants), CbBinder(st));
      state := WithStage(state, st, ss.(constantBuffers := slots));
    }

    /** The per-stage `*SetSamplers`: as `SetConstantBuffers`, for sampler slots. */
    method SetSamplers(st: Stage, start: nat, samplers: seq<Handle>)
      requires Valid()
      requires start + |samplers| <= SamplerSlots
      modifies this`state, this`chunk, this`dispatched, this`csIsBusy
      ensures Valid()
      ensures var cur := StageOf(old(state), st).samplers;
              state == WithStage(old(state), st, StageOf(old(state), st).(samplers := Splice(cur, start, samplers)))
              && Commands() == old(Commands()) + ChangedBinds(cur, start, samplers, SamplerBinder(st))
    {
      var ss := StageOf(state, st);
      var slots := WriteSlots(ss.samplers, start, samplers, SamplerBinder(st));
      state := WithStage(state, st, ss.(samplers := slots));
    }

    /** The per-stage `*SetShaderResources`: as `SetConstantBuffers`, for shader-resource slots. */
    method SetShaderResources(st: Stage, start: nat, views: seq<Handle>)
      requires Valid()
      requires start + |views| <= ShaderResourceSlots
      modifies this`state, this`chunk, this`dispatched, this`csIsBusy
      ensures Valid()
      ensures var cur := StageOf(old(state), st).shaderResources;
              state == WithStage(old(state), st, StageOf(old(state), st).(shaderResources := Splice(cur, start, views)))
              && Commands() == old(Commands()) + ChangedBinds(cur, start, views, ShaderResourceBinder(st))
    {
      var ss := StageOf(state, st);
      var slots := WriteSlots(ss.shaderResources, start, views, ShaderResourceBinder(st));
      state := WithStage(state, st, ss.(shaderResources := slots));
    }

    // ---- Output merger ---------------------------------------------------------

    /**
     * Flushes once `MaxPendingDraws` draws are pending, then fills all eight
     * render-target slots from `views` (unbound past its end, extra views
     * ignored), stores the depth view and records the framebuffer.
     */
    method OMSetRenderTargets(views: seq<Handle>, depthStencilView: Handle)
      requires Valid()
      modifies this`state, this`chunk, this`dispatched, this`csIsBusy, this`drawCount, this`resourceInitCommands, this`initSubmissions
      ensures Valid()
      ensures state == old(state).(om := old(state).om.(renderTargetViews := PadTo(views, RenderTargetSlots, NullHandle), depthStencilView := depthStencilView))
      ensures old(drawCount) >= MaxPendingDraws ==>
        Commands() == old(Commands()) + [C.SubmitCommandList, FramebufferCmd(state)] && drawCount == 0
      ensures old(drawCount) < MaxPendingDraws ==>
        Commands() == old(Commands()) + [FramebufferCmd(state)] && drawCount == old(drawCount)
      ensures old(drawCount) >= MaxPendingDraws ==>
        resourceInitCommands == 0 && initSubmissions == old(initSubmissions) + (if old(resourceInitCommands) != 0 then 1 else 0)
        && !csIsBusy
      ensures old(drawCount) < MaxPendingDraws ==>
        resourceInitCommands == old(resourceInitCommands) && initSubmissions == old(initSubmissions)
        && (csIsBusy <==> old(csIsBusy) || |old(chunk)| == chunkCapacity)
    {
      if drawCount >= MaxPendingDraws {
        Flush();
      }
      ghost var c0 := Commands();
      var rtvs := state.om.renderTargetViews;
      var i := 0;
      while i < RenderTargetSlots
        invariant 0 <= i <= RenderTargetSlots && |rtvs| == RenderTargetSlots
        invariant forall k :: 0 <= k < i ==> rtvs[k] == if k < |views| then views[k] else NullHandle
      {
        rtvs := rtvs[i := if i < |views| then views[i] else NullHandle];
        i := i + 1;
      }
      assert rtvs == PadTo(views, RenderTargetSlots, NullHandle);
      state := state.(om := state.om.(renderTargetViews := rtvs, depthStencilView := depthStencilView));
      BindFramebuffer();
    }

    /**
     * Stores the blend state and sample mask, recording them only when
     * either changes; a given blend factor is stored and recorded always.
     */
    method OMSetBlendState(blendState: Handle, blendFactor: Option<seq<real>>, sampleMask: nat)
      requires Valid()
      requires blendFactor.Some? ==> |blendFactor.value| == 4
      requires sampleMask < TwoTo32
      modifies this`state, this`chunk, this`dispatched, this`csIsBusy
      ensures Valid()
      ensures state == old(state).(om := old(state).om.(cbState := blendState, sampleMask := sampleMask,
                blendFactor := if blendFactor.Some? then blendFactor.value else old(state).om.blendFactor))
      ensures Commands() == old(Commands())
        + (if old(state).om.cbState != blendState || old(state).om.sampleMask != sampleMask then [BlendStateCmd(state)] else [])
        + (if blendFactor.Some? then [BlendFactorCmd(state)] else [])
    {
      if state.om.cbState != blendState || state.om.sampleMask != sampleMask {
        state := state.(om := state.om.(cbState := blendState, sampleMask := sampleMask));
        ApplyBlendState();
      }
      if blendFactor.Some? {
        state := state.(om := state.om.(blendFactor := blendFactor.value));
        ApplyBlendFactor();
      }
    }

    /** Stores the depth-stencil state and the stencil reference, recording each only when it changes. */
    method OMSetDepthStencilState(depthStencilState: Handle, stencilRef: nat)
      requires Valid()
      requires stencilRef < TwoTo32
      modifies this`state, this`chunk, this`dispatched, this`csIsBusy
      ensures Valid()
      ensures state == old(state).(om := old(state).om.(dsState := depthStencilState, stencilRef := stencilRef))
      ensures Commands() == old(Commands())
        + (if old(state).om.dsState != depthStencilState then [DepthStencilStateCmd(state)] else [])
        + (if old(state).om.stencilRef != stencilRef then [StencilRefCmd(state)] else [])
    {
      if state.om.dsState != depthStencilState {
        state := state.(om := state.om.(dsState := depthStencilState));
        ApplyDepthStencilState();
      }
      if state.om.stencilRef != stencilRef {
        state := state.(om := state.om.(stencilRef := stencilRef));
        ApplyStencilRef();
      }
    }

    // ---- Rasterizer --------------------------------------------------------------

    /**
     * Stores the rasterizer state and, when it changes, records it and then
     * the viewport state, whose scissor rectangles depend on it.
     */
    method RSSetState(rasterizerState: RasterizerRef)
      requires Valid()
      modifies this`state, this`chunk, this`dispatched, this`csIsBusy
      ensures Valid()
      ensures state == old(state).(rs := old(state).rs.(state := rasterizerState))
      ensures Commands() == old(Commands())
        + (if old(state).rs.state != rasterizerState then [RasterizerStateCmd(state)] + ViewportCmds(state.rs) else [])
    {
      if state.rs.state != rasterizerState {
        state := state.(rs := state.rs.(state := rasterizerState));
        ApplyRasterizerState();
        ApplyViewportState();
      }
    }

    /** Stores the viewport count and the viewports from slot 0, then records the viewport state. */
    method RSSetViewports(viewports: seq<Viewport>)
      requires Valid()
      requires |viewports| <= ViewportSlots
      modifies this`state, this`chunk, this`dispatched, this`csIsBusy
      ensures Valid()
      ensures state == old(state).(rs := old(state).rs.(numViewports := |viewports|, viewports := Splice(old(state).rs.viewports, 0, viewports)))
      ensures Commands() == old(Commands()) + ViewportCmds(state.rs)
    {
      var vps := state.rs.viewports;
      var i := 0;
      while i < |viewports|
        invariant 0 <= i <= |viewports|
        invariant vps == Splice(old(state).rs.viewports, 0, viewports[..i]) && |vps| == ViewportSlots
        // only locals change here, so the loop keeps every field of the device
        modifies {}
      {
        SpliceSnoc(old(state).rs.viewports, 0, viewports, i);
        vps := vps[i := viewports[i]];
        i := i + 1;
      }
      assert viewports[..|viewports|] == viewports;
      state := state.(rs := state.rs.(numViewports := |viewports|, viewports := vps));
      ApplyViewportState();
    }

    /**
     * Stores the scissor count and rectangles from slot 0; the viewport
     * state is recorded again only when the bound rasterizer state enables
     * the scissor test.
     */
    method RSSetScissorRects(rects: seq<Rect>)
      requires Valid()
      requires |rects| <= ViewportSlots
      modifies this`state, this`chunk, this`dispatched, this`csIsBusy
      ensures Valid()
      ensures state == old(state).(rs := old(state).rs.(numScissors := |rects|, scissors := Splice(old(state).rs.scissors, 0, rects)))
      ensures Commands() == old(Commands()) + (if ScissorEnabled(state.rs) then ViewportCmds(state.rs) else [])
    {
      var scs := state.rs.scissors;
      var i := 0;
      while i < |rects|
        invariant 0 <= i <= |rects|
        invariant scs == Splice(old(state).rs.scissors, 0, rects[..i]) && |scs| == ViewportSlots
        // only locals change here, so the loop keeps every field of the device
        modifies {}
      {
        SpliceSnoc(old(state).rs.scissors, 0, rects, i);
        scs := scs[i := rects[i]];
        i := i + 1;
      }
      assert rects[..|rects|] == rects;
      state := state.(rs := state.rs.(numScissors := |rects|, scissors := scs));
      if state.rs.state.Rasterizer? && state.rs.state.scissorEnable {
        ApplyViewportState();
      }
    }

    // ---- Stream output ------------------------------------------------------------

    /**
     * Fills the four stream-output slots from `targets` (unbound past its
     * end, and all unbound without an array); offsets are ignored and
     * nothing is recorded.
     */
    method SOSetTargets(targets: Option<seq<BufferRef>>)
      requires Valid()
      modifies this`state
      ensures Valid()
      ensures state == old(state).(so := SoState(PadTo(if targets.Some? then targets.value else [], StreamOutputSlots, NoBuffer)))
    {
      var ts := state.so.targets;
      var i := 0;
      while i < StreamOutputSlots
        invariant 0 <= i <= StreamOutputSlots && |ts| == StreamOutputSlots
        invariant forall k :: 0 <= k < i ==> ts[k] == if targets.Some? && k < |targets.value| then targets.value[k] else NoBuffer
      {
        ts := ts[i := if targets.Some? && i < |targets.value| then targets.value[i] else NoBuffer];
        i := i + 1;
      }
      assert ts == PadTo(if targets.Some? then targets.value else [], StreamOutputSlots, NoBuffer);
      state := state.(so := SoState(ts));
    }

    // ---- Restoring and clearing --------------------------------------------------

    method RestoreVertexBuffers()
      requires Valid()
      modifies this`chunk, this`dispatched, this`csIsBusy
      ensures Valid() && Commands() == old(Commands()) + AllSlotBinds(state.ia.vertexBuffers, VertexBufferCmd)
    {
      var bs := state.ia.vertexBuffers;
      var i := 0;
      while i < |bs|
        invariant 0 <= i <= |bs| && Valid()
        invariant Commands() == old(Commands()) + AllSlotBinds(bs[..i], VertexBufferCmd)
        modifies this`chunk, this`dispatched, this`csIsBusy
      {
        BindVertexBuffer(i, bs[i].buffer, bs[i].offset, bs[i].stride);
        AllSlotBindsSnoc(bs, i, VertexBufferCmd);
        i := i + 1;
      }
      assert bs[..|bs|] == bs;
    }

    /** `RestoreConstantBuffers`: a bind for every constant-buffer slot of the stage, in slot order. */
    method RestoreConstantBuffers(st: Stage)
      requires Valid()
      modifies this`chunk, this`dispatched, this`csIsBusy
      ensures Valid() && Commands() == old(Commands()) + AllSlotBinds(StageOf(state, st).constantBuffers, CbBinder(st))
    {
      var bs := StageOf(state, st).constantBuffers;
      var i := 0;
      while i < |bs|
        invariant 0 <= i <= |bs| && Valid()
        invariant Commands() == old(Commands()) + AllSlotBinds(bs[..i], CbBinder(st))
        modifies this`chunk, this`dispatched, this`csIsBusy
      {
        BindConstantBuffer(st, i, bs[i]);
        AllSlotBindsSnoc(bs, i, CbBinder(st));
        i := i + 1;
      }
      assert bs[..|bs|] == bs;
    }

    /** `RestoreSamplers`: a bind for every sampler slot of the stage, in slot order. */
    method RestoreSamplers(st: Stage)
      requires Valid()
      modifies this`chunk, this`dispatched, this`csIsBusy
      ensures Valid() && Commands() == old(Commands()) + AllSlotBinds(StageOf(state, st).samplers, SamplerBinder(st))
    {
      var bs := StageOf(state, st).samplers;
      var i := 0;
      while i < |bs|
        invariant 0 <= i <= |bs| && Valid()
        invariant Commands() == old(Commands()) + AllSlotBinds(bs[..i], SamplerBinder(st))
        modifies this`chunk, this`dispatched, this`csIsBusy
      {
        BindSampler(st, i, bs[i]);
        AllSlotBindsSnoc(bs, i, SamplerBinder(st));
        i := i + 1;
      }
      assert bs[..|bs|] == bs;
    }

    /** `RestoreShaderResources`: a bind for every shader-resource slot of the stage, in slot order. */
    method RestoreShaderResources(st: Stage)
      requires Valid()
      modifies this`chunk, this`dispatched, this`csIsBusy
      ensures Valid() && Commands() == old(Commands()) + AllSlotBinds(StageOf(state, st).shaderResources, ShaderResourceBinder(st))
    {
      var bs := StageOf(state, st).shaderResources;
      var i := 0;
      while i < |bs|
        invariant 0 <= i <= |bs| && Valid()
        invariant Commands() == old(Commands()) + AllSlotBinds(bs[..i], ShaderResourceBinder(st))
        modifies this`chunk, this`dispatched, this`csIsBusy
      {
        BindShaderResource(st, i, bs[i]);
        AllSlotBindsSnoc(bs, i, ShaderResourceBinder(st));
        i := i + 1;
      }
      assert bs[..|bs|] == bs;
    }

    method ApplyIaState()
      requires Valid()
      modifies this`chunk, this`dispatched, this`csIsBusy
      ensures Valid() && Commands() == old(Commands()) + IaStateCmds(state)
    {
      ApplyInputLayout();
      ApplyPrimitiveTopology();
    }

    method ApplyOmState()
      requires Valid()
      modifies this`chunk, this`dispatched, this`csIsBusy
      ensures Valid() && Commands() == old(Commands()) + OmStateCmds(state)
    {
      ApplyBlendState();
      ApplyBlendFactor();
      ApplyDepthStencilState();
      ApplyStencilRef();
    }

    method ApplyRsState()
      requires Valid()
      modifies this`chunk, this`dispatched, this`csIsBusy
      ensures Valid() && Commands() == old(Commands()) + RsStateCmds(state)
    {
      ApplyRasterizerState();
      ApplyViewportState();
    }

    /** `RestoreState`'s input-layout to viewport steps. */
    method ApplyFixedState()
      requires Valid()
      modifies this`chunk, this`dispatched, this`csIsBusy
      ensures Valid() && Commands() == old(Commands()) + FixedStateCmds(state)
    {
      ghost var c0 := Commands();
      ApplyIaState();
      ApplyOmState();
      C.AppendAssoc(c0, IaStateCmds(state), OmStateCmds(state));
      ApplyRsState();
      C.AppendAssoc(c0, IaStateCmds(state) + OmStateCmds(state), RsStateCmds(state));
    }

    /** The render targets, then the vertex, geometry and pixel shaders. */
    method RestoreFramebufferAndShaders()
      requires Valid()
      modifies this`chunk, this`dispatched, this`csIsBusy
      ensures Valid()
      ensures Commands() == old(Commands()) + [FramebufferCmd(state), ShaderCmd(state, Vertex), ShaderCmd(state, Geometry), ShaderCmd(state, Pixel)]
    {
      ghost var c0 := Commands();
      BindFramebuffer();
      BindShader(Vertex, state.vs.shader);
      ghost var c2 := Commands();
      assert c2 == c0 + [FramebufferCmd(state), ShaderCmd(state, Vertex)];
      BindShader(Geometry, state.gs.shader);
      BindShader(Pixel, state.ps.shader);
      assert Commands() == c2 + [ShaderCmd(state, Geometry), ShaderCmd(state, Pixel)];
    }

    /** `RestoreState`'s steps up to the index buffer. */
    method RestoreFixedState()
      requires Valid()
      modifies this`chunk, this`dispatched, this`csIsBusy
      ensures Valid() && Commands() == old(Commands()) + RestoreFixedCommands(state)
    {
      ghost var c0 := Commands();
      ghost var shaders := [FramebufferCmd(state), ShaderCmd(state, Vertex), ShaderCmd(state, Geometry), ShaderCmd(state, Pixel)];
      ghost var fixed := FixedStateCmds(state);
      ghost var index := [IndexBufferCmd(state.ia.indexBuffer)];
      assert RestoreFixedCommands(state) == shaders + fixed + index;
      RestoreFramebufferAndShaders();
      ApplyFixedState();
      C.AppendAssoc(c0, shaders, fixed);
      BindIndexBuffer(state.ia.indexBuffer.buffer, state.ia.indexBuffer.offset, state.ia.indexBuffer.format);
      C.AppendAssoc(c0, shaders + fixed, index);
    }

    /** The constant buffers, samplers or views of all three stages, vertex stage first. */
    method RestoreConstantBuffersAll()
      requires Valid()
      modifies this`chunk, this`dispatched, this`csIsBusy
      ensures Valid() && Commands() == old(Commands()) + ConstantBufferBinds(state)
    {
      ghost var c0 := Commands();
      ghost var v := AllSlotBinds(state.vs.constantBuffers, CbBinder(Vertex));
      ghost var g := AllSlotBinds(state.gs.constantBuffers, CbBinder(Geometry));
      RestoreConstantBuffers(Vertex);
      RestoreConstantBuffers(Geometry);
      C.AppendAssoc(c0, v, g);
      RestoreConstantBuffers(Pixel);
      C.AppendAssoc(c0, v + g, AllSlotBinds(state.ps.constantBuffers, CbBinder(Pixel)));
    }

    method RestoreSamplersAll()
      requires Valid()
      modifies this`chunk, this`dispatched, this`csIsBusy
      ensures Valid() && Commands() == old(Commands()) + SamplerBinds(state)
    {
      ghost var c0 := Commands();
      ghost var v := AllSlotBinds(state.vs.samplers, SamplerBinder(Vertex));
      ghost var g := AllSlotBinds(state.gs.samplers, SamplerBinder(Geometry));
      RestoreSamplers(Vertex);
      RestoreSamplers(Geometry);
      C.AppendAssoc(c0, v, g);
      RestoreSamplers(Pixel);
      C.AppendAssoc(c0, v + g, AllSlotBinds(state.ps.samplers, SamplerBinder(Pixel)));
    }

    method RestoreShaderResourcesAll()
      requires Valid()
      modifies this`chunk, this`dispatched, this`csIsBusy
      ensures Valid() && Commands() == old(Commands()) + ShaderResourceBinds(state)
    {
      ghost var c0 := Commands();
      ghost var v := AllSlotBinds(state.vs.shaderResources, ShaderResourceBinder(Vertex));
      ghost var g := AllSlotBinds(state.gs.shaderResources, ShaderResourceBinder(Geometry));
      RestoreShaderResources(Vertex);
      RestoreShaderResources(Geometry);
      C.AppendAssoc(c0, v, g);
      RestoreShaderResources(Pixel);
      C.AppendAssoc(c0, v + g, AllSlotBinds(state.ps.shaderResources, ShaderResourceBinder(Pixel)));
    }

    /** `RestoreState`'s slot steps: vertex buffers, then each stage's constant buffers, samplers and views. */
    method RestoreSlotBindings()
      requires Valid()
      modifies this`chunk, this`dispatched, this`csIsBusy
      ensures Valid() && Commands() == old(Commands()) + RestoreSlotCommands(state)
    {
      ghost var c0 := Commands();
      ghost var vb := AllSlotBinds(state.ia.vertexBuffers, VertexBufferCmd);
      RestoreVertexBuffers();
      RestoreConstantBuffersAll();
      C.AppendAssoc(c0, vb, ConstantBufferBinds(state));
      RestoreSamplersAll();
      C.AppendAssoc(c0, vb + ConstantBufferBinds(state), SamplerBinds(state));
      RestoreShaderResourcesAll();
      C.AppendAssoc(c0, vb + ConstantBufferBinds(state) + SamplerBinds(state), ShaderResourceBinds(state));
    }

    /** Records the whole snapshot: the fixed-function state, then every slot. */
    method RestoreState()
      requires Valid()
      modifies this`chunk, this`dispatched, this`csIsBusy
      ensures Valid() && Commands() == old(Commands()) + RestoreCommands(state)
    {
      ghost var c0 := Commands();
      ghost var fixed := RestoreFixedCommands(state);
      ghost var slots := RestoreSlotCommands(state);
      assert RestoreCommands(state) == fixed + slots;
      RestoreFixedState();
      assert Commands() == c0 + fixed;
      RestoreSlotBindings();
      C.AppendAssoc(c0, fixed, slots);
    }

    /**
     * Resets the snapshot to the cleared state (stream-output targets kept)
     * and records all of it; every recorded command unbinds or restores a
     * default.
     */
    method ClearState()
      requires Valid()
      modifies this`state, this`chunk, this`dispatched, this`csIsBusy
      ensures Valid() && state == Cleared(old(state))
      ensures Commands() == old(Commands()) + RestoreCommands(state)
      ensures |Commands()| == |old(Commands())| + 501
      ensures forall k :: |old(Commands())| <= k < |Commands()| ==> BindsNothing(Commands()[k])
    {
      state := Cleared(state);
      ClearedRestoreBindsNothing(old(state));
      RestoreState();
      SuffixBindsNothing(old(Commands()), RestoreCommands(state));
    }
  }
}
