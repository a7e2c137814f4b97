/**
 * `D3D9StateBlock`: the recorded copy of device state behind
 * IDirect3DStateBlock9. Each `Set*` call stores a value and marks what it
 * touched in the capture mask; `CaptureType` marks the groups of state a
 * PixelState, VertexState or All block covers; `Apply` and `Capture` copy
 * the marked state between the block and the device.
 */
module StateBlock9 {
  import opened Common

  /** D3D9StateBlockType. */
  datatype StateBlockType = NoneType | VertexState | PixelState | All

  /** D3D9CapturedStateFlag: one flag per group of captured state. */
  datatype CapturedFlag =
    | VertexDecl | Indices | RenderStates | SamplerStates | VertexBuffers | Textures
    | VertexShader | PixelShader | Viewport | ScissorRect | ClipPlanes | VsConstants
    | PsConstants | StreamFreq | Transforms | TextureStages | Material

  /** The groups only an All block captures. */
  const AllOnlyFlags: set<CapturedFlag> :=
    {Textures, VertexBuffers, Indices, Viewport, ScissorRect, ClipPlanes, Transforms, Material}

  /** The pixel render states (D3DRENDERSTATETYPE values; every one is below 210). */
  const PixelRenderStateTypes: set<nat> := set i: nat | i < 210 && IsPixelRenderState(i)

  predicate IsPixelRenderState(i: nat) {
    i in {
      7, 8, 9, 14, 15, 16, 19, 20,       // ZENABLE, FILLMODE, SHADEMODE, ZWRITEENABLE, ALPHATESTENABLE, LASTPIXEL, SRCBLEND, DESTBLEND
      23, 24, 25, 26, 36, 37, 38, 27,    // ZFUNC, ALPHAREF, ALPHAFUNC, DITHERENABLE, FOGSTART, FOGEND, FOGDENSITY, ALPHABLENDENABLE
      195, 52, 53, 54, 55, 56, 57, 58,   // DEPTHBIAS, STENCILENABLE, STENCILFAIL, STENCILZFAIL, STENCILPASS, STENCILFUNC, STENCILREF, STENCILMASK
      59, 60,                            // STENCILWRITEMASK, TEXTUREFACTOR
      128, 129, 130, 131, 132, 133, 134, 135,  // WRAP0 .. WRAP7
      198, 199, 200, 201, 202, 203, 204, 205,  // WRAP8 .. WRAP15
      168, 171, 174, 175, 176,           // COLORWRITEENABLE, BLENDOP, SCISSORTESTENABLE, SLOPESCALEDEPTHBIAS, ANTIALIASEDLINEENABLE
      185, 186, 187, 188, 189,           // TWOSIDEDSTENCILMODE, CCW_STENCILFAIL, CCW_STENCILZFAIL, CCW_STENCILPASS, CCW_STENCILFUNC
      190, 191, 192, 193, 194,           // COLORWRITEENABLE1 .. 3, BLENDFACTOR, SRGBWRITEENABLE
      206, 207, 208, 209}                // SEPARATEALPHABLENDENABLE, SRCBLENDALPHA, DESTBLENDALPHA, BLENDOPALPHA
  }

  /** The vertex render states (D3DRENDERSTATETYPE values; every one is below 210). */
  const VertexRenderStateTypes: set<nat> := set i: nat | i < 210 && IsVertexRenderState(i)

  predicate IsVertexRenderState(i: nat) {
    i in {
      22, 28, 34, 35, 36, 37, 38, 48,    // CULLMODE, FOGENABLE, FOGCOLOR, FOGTABLEMODE, FOGSTART, FOGEND, FOGDENSITY, RANGEFOGENABLE
      139, 141, 140, 136, 137, 142,      // AMBIENT, COLORVERTEX, FOGVERTEXMODE, CLIPPING, LIGHTING, LOCALVIEWER
      148, 147, 145, 146, 151, 152,      // EMISSIVE/AMBIENT/DIFFUSE/SPECULAR MATERIALSOURCE, VERTEXBLEND, CLIPPLANEENABLE
      154, 155, 156, 157, 158, 159, 160, // POINTSIZE, POINTSIZE_MIN, POINTSPRITEENABLE, POINTSCALEENABLE, POINTSCALE_A .. C
      161, 162, 163, 166, 167, 170,      // MULTISAMPLEANTIALIAS, MULTISAMPLEMASK, PATCHEDGESTYLE, POINTSIZE_MAX, INDEXEDVERTEXBLENDENABLE, TWEENFACTOR
      172, 173, 178, 179,                // POSITIONDEGREE, NORMALDEGREE, MIN/MAXTESSELLATIONLEVEL
      180, 181, 182, 183, 184,           // ADAPTIVETESS_X .. W, ENABLEADAPTIVETESSELLATION
      143, 29, 9}                        // NORMALIZENORMALS, SPECULARENABLE, SHADEMODE
  }

  /** The sampler states a PixelState block captures: ADDRESSU (1) through ELEMENTINDEX (12). */
  const PixelSamplerStateTypes: set<nat> := Range(1, 13)

  /** D3DSAMP_DMAPOFFSET, the only sampler state a VertexState block captures. */
  const DmapOffset: nat := 13

  /** Samplers 0 .. 16 (the pixel samplers and the displacement map) belong to the pixel side. */
  const PixelSamplerCount: nat := 17

  /** The sizes of the shader-constant bitsets of one stage. */
  datatype ConstCounts = ConstCounts(floats: nat, ints: nat, bools: nat)

  /**
   * The array and bitset sizes of the captured state (SamplerCount,
   * caps::MaxStreams and the rest); the header declaring them is not part
   * of this model, so they are parameters.
   */
  datatype Sizes = Sizes(
    renderStateCount: nat, samplerCount: nat, samplerStateCount: nat, streamCount: nat,
    stageCount: nat, stageStateCount: nat, transformCount: nat, clipPlaneCount: nat,
    vs: ConstCounts, ps: ConstCounts)

  /** What the code relies on: every listed state and sampler index fits its bitset. */
  predicate SizesOk(sz: Sizes) {
    PixelRenderStateTypes + VertexRenderStateTypes <= Range(0, sz.renderStateCount)
    && sz.samplerCount >= PixelSamplerCount && sz.samplerStateCount > DmapOffset
  }

  /** Which shader constants are marked, by kind. */
  datatype ConstMask = ConstMask(fConsts: set<nat>, iConsts: set<nat>, bConsts: set<nat>)

  /** `m_captures`: the flags and the per-item bitsets, one row of bits per sampler and per stage. */
  datatype CaptureMask = CaptureMask(
    flags: set<CapturedFlag>,
    renderStates: set<nat>,
    samplers: set<nat>,
    samplerStates: seq<set<nat>>,
    vertexBuffers: set<nat>,
    streamFreq: set<nat>,
    textures: set<nat>,
    transforms: set<nat>,
    clipPlanes: set<nat>,
    textureStages: set<nat>,
    textureStageStates: seq<set<nat>>,
    vsConsts: ConstMask,
    psConsts: ConstMask)

  /** The bit indices `lo .. hi - 1`. */
  function Range(lo: nat, hi: nat): (r: set<nat>)
    ensures forall i :: i in r <==> lo <= i < hi
  {
    set i: nat | lo <= i < hi && Between(lo, i, hi)
  }

  predicate Between(lo: nat, i: nat, hi: nat) {
    lo <= i < hi
  }

  /** `rows` with `add` marked in every row from `lo` below `hi`. */
  function MarkRows(rows: seq<set<nat>>, lo: nat, hi: nat, add: set<nat>): (r: seq<set<nat>>)
    ensures |r| == |rows|
    ensures forall k :: 0 <= k < |r| ==> r[k] == if lo <= k < hi then rows[k] + add else rows[k]
  {
    seq(|rows|, k requires 0 <= k < |rows| => if lo <= k < hi then rows[k] + add else rows[k])
  }

  /** `rows` with every row set to `full` (`setAll` on each row). */
  function FillRows(rows: seq<set<nat>>, full: set<nat>): (r: seq<set<nat>>)
    ensures |r| == |rows|
    ensures forall k :: 0 <= k < |r| ==> r[k] == full
  {
    seq(|rows|, _ => full)
  }

  function AllConsts(n: ConstCounts): ConstMask {
    ConstMask(Range(0, n.floats), Range(0, n.ints), Range(0, n.bools))
  }

  /** A mask with nothing marked and one empty row per sampler and per stage. */
  function NoCaptures(sz: Sizes): CaptureMask {
    CaptureMask({}, {}, {}, seq(sz.samplerCount, _ => {}), {}, {}, {}, {}, {}, {},
      seq(sz.stageCount, _ => {}), ConstMask({}, {}, {}), ConstMask({}, {}, {}))
  }

  /** `n` zero-initialised values. */
  function Zeros(n: nat): (r: seq<nat>)
    ensures |r| == n && forall k :: 0 <= k < n ==> r[k] == 0
  {
    seq(n, _ => 0)
  }

  /** `n` rows of `m` zero-initialised values. */
  function ZeroRows(n: nat, m: nat): (r: seq<seq<nat>>)
    ensures |r| == n && forall k :: 0 <= k < n ==> r[k] == Zeros(m)
  {
    seq(n, _ => Zeros(m))
  }

  lemma NoCapturesWithin(sz: Sizes)
    ensures WithinSizes(NoCaptures(sz), sz)
  {
    var c := NoCaptures(sz);
    assert RowsWithin(c.samplerStates, sz.samplerCount, sz.samplerStateCount);
    assert RowsWithin(c.textureStageStates, sz.stageCount, sz.stageStateCount);
  }

  /** Adding flags outside `x` leaves the flags inside `x` as they were. */
  lemma AddOutside(a: set<CapturedFlag>, add: set<CapturedFlag>, x: set<CapturedFlag>)
    requires forall f :: f in add ==> f !in x
    ensures (a + add) * x == a * x
  {
  }

  predicate RowsWithin(rows: seq<set<nat>>, count: nat, width: nat) {
    |rows| == count && forall k :: 0 <= k < |rows| ==> rows[k] <= Range(0, width)
  }

  predicate ConstsWithin(m: ConstMask, n: ConstCounts) {
    m.fConsts <= Range(0, n.floats) && m.iConsts <= Range(0, n.ints) && m.bConsts <= Range(0, n.bools)
  }

  /** Every marked bit lies inside its fixed-size bitset. */
  predicate WithinSizes(c: CaptureMask, sz: Sizes) {
    c.renderStates <= Range(0, sz.renderStateCount)
    && c.samplers <= Range(0, sz.samplerCount)
    && RowsWithin(c.samplerStates, sz.samplerCount, sz.samplerStateCount)
    && c.vertexBuffers <= Range(0, sz.streamCount)
    && c.streamFreq <= Range(0, sz.streamCount)
    && c.textures <= Range(0, sz.samplerCount)
    && c.transforms <= Range(0, sz.transformCount)
    && c.clipPlanes <= Range(0, sz.clipPlaneCount)
    && c.textureStages <= Range(0, sz.stageCount)
    && RowsWithin(c.textureStageStates, sz.stageCount, sz.stageStateCount)
    && ConstsWithin(c.vsConsts, sz.vs) && ConstsWithin(c.psConsts, sz.ps)
  }

  predicate RowsIncluded(small: seq<set<nat>>, large: seq<set<nat>>) {
    |small| == |large| && forall k :: 0 <= k < |small| ==> small[k] <= large[k]
  }

  predicate ConstsIncluded(small: ConstMask, large: ConstMask) {
    small.fConsts <= large.fConsts && small.iConsts <= large.iConsts && small.bConsts <= large.bConsts
  }

  /** Everything marked in `small` is marked in `large`. */
  predicate Included(small: CaptureMask, large: CaptureMask) {
    small.flags <= large.flags && small.renderStates <= large.renderStates
    && small.samplers <= large.samplers && RowsIncluded(small.samplerStates, large.samplerStates)
    && small.vertexBuffers <= large.vertexBuffers && small.streamFreq <= large.streamFreq
    && small.textures <= large.textures && small.transforms <= large.transforms
    && small.clipPlanes <= large.clipPlanes && small.textureStages <= large.textureStages
    && RowsIncluded(small.textureStageStates, large.textureStageStates)
    && ConstsIncluded(small.vsConsts, large.vsConsts) && ConstsIncluded(small.psConsts, large.psConsts)
  }

  // The marks each capture step adds, one function per step.

  function PixelRenderStatesCaptured(c: CaptureMask): CaptureMask {
    c.(flags := c.flags + {RenderStates}, renderStates := c.renderStates + PixelRenderStateTypes)
  }

  function PixelSamplerStatesCaptured(c: CaptureMask): CaptureMask {
    c.(flags := c.flags + {SamplerStates}, samplers := c.samplers + Range(0, PixelSamplerCount),
       samplerStates := MarkRows(c.samplerStates, 0, PixelSamplerCount, PixelSamplerStateTypes))
  }

  function PixelShaderStatesCaptured(c: CaptureMask, sz: Sizes): CaptureMask {
    c.(flags := c.flags + {PixelShader, PsConstants}, psConsts := AllConsts(sz.ps))
  }

  function VertexRenderStatesCaptured(c: CaptureMask): CaptureMask {
    c.(flags := c.flags + {RenderStates}, renderStates := c.renderStates + VertexRenderStateTypes)
  }

  function VertexSamplerStatesCaptured(c: CaptureMask, sz: Sizes): CaptureMask {
    c.(flags := c.flags + {SamplerStates}, samplers := c.samplers + Range(PixelSamplerCount, sz.samplerCount),
       samplerStates := MarkRows(c.samplerStates, PixelSamplerCount, sz.samplerCount, {DmapOffset}))
  }

  function VertexShaderStatesCaptured(c: CaptureMask, sz: Sizes): CaptureMask {
    c.(flags := c.flags + {VertexShader, VsConstants}, vsConsts := AllConsts(sz.vs))
  }

  /** The pixel-side groups, then every texture stage and stage state. */
  function PixelStateCaptured(c: CaptureMask, sz: Sizes): CaptureMask {
    var s := PixelShaderStatesCaptured(PixelSamplerStatesCaptured(PixelRenderStatesCaptured(c)), sz);
    s.(flags := s.flags + {TextureStages}, textureStages := Range(0, sz.stageCount),
       textureStageStates := FillRows(s.textureStageStates, Range(0, sz.stageStateCount)))
  }

  /** The vertex-side groups, then the vertex declaration and every stream frequency. */
  function VertexStateCaptured(c: CaptureMask, sz: Sizes): CaptureMask {
    var s := VertexShaderStatesCaptured(VertexSamplerStatesCaptured(VertexRenderStatesCaptured(c), sz), sz);
    s.(flags := s.flags + {VertexDecl, StreamFreq}, streamFreq := s.streamFreq + Range(0, sz.streamCount))
  }

  /** The groups only an All block covers, each fully marked. */
  function AllOnlyCaptured(c: CaptureMask, sz: Sizes): CaptureMask {
    c.(flags := c.flags + AllOnlyFlags, textures := Range(0, sz.samplerCount),
       vertexBuffers := Range(0, sz.streamCount), clipPlanes := Range(0, sz.clipPlaneCount),
       transforms := Range(0, sz.transformCount))
  }

  /** The capture mask `CaptureType` leaves, starting from `c`. */
  function CapturedFor(c: CaptureMask, t: StateBlockType, sz: Sizes): (r: CaptureMask)
    ensures t == NoneType ==> r == c
  {
    var p := if t == PixelState || t == All then PixelStateCaptured(c, sz) else c;
    var v := if t == VertexState || t == All then VertexStateCaptured(p, sz) else p;
    if t == All then AllOnlyCaptured(v, sz) else v
  }

  lemma MarkRowsIdempotent(rows: seq<set<nat>>, lo: nat, hi: nat, add: set<nat>)
    ensures MarkRows(MarkRows(rows, lo, hi, add), lo, hi, add) == MarkRows(rows, lo, hi, add)
  {
    var once := MarkRows(rows, lo, hi, add);
    var twice := MarkRows(once, lo, hi, add);
    assert forall k :: 0 <= k < |twice| ==> twice[k] == once[k];
  }

  lemma FillRowsIdempotent(rows: seq<set<nat>>, full: set<nat>)
    ensures FillRows(FillRows(rows, full), full) == FillRows(rows, full)
  {
    var once := FillRows(rows, full);
    assert forall k :: 0 <= k < |once| ==> FillRows(once, full)[k] == once[k];
  }

  /** Capturing the same type twice marks nothing the first call did not. */
  lemma CaptureTypeIdempotent(c: CaptureMask, t: StateBlockType, sz: Sizes)
    ensures CapturedFor(CapturedFor(c, t, sz), t, sz) == CapturedFor(c, t, sz)
  {
    if t == All {
      AllCaptureIdempotent(c, sz);
    } else if t == PixelState {
      var once := PixelStateCaptured(c, sz);
      assert CapturedFor(c, t, sz) == once && CapturedFor(once, t, sz) == PixelStateCaptured(once, sz);
      MarkRowsIdempotent(c.samplerStates, 0, PixelSamplerCount, PixelSamplerStateTypes);
      FillRowsIdempotent(c.textureStageStates, Range(0, sz.stageStateCount));
    } else if t == VertexState {
      var once := VertexStateCaptured(c, sz);
      assert CapturedFor(c, t, sz) == once && CapturedFor(once, t, sz) == VertexStateCaptured(once, sz);
      MarkRowsIdempotent(c.samplerStates, PixelSamplerCount, sz.samplerCount, {DmapOffset});
    }
  }

  /** An All block's marks, applied again, add nothing. */
  lemma AllCaptureIdempotent(c: CaptureMask, sz: Sizes)
    ensures CapturedFor(CapturedFor(c, All, sz), All, sz) == CapturedFor(c, All, sz)
  {
    var once := AllOnlyCaptured(VertexStateCaptured(PixelStateCaptured(c, sz), sz), sz);
    var twice := AllOnlyCaptured(VertexStateCaptured(PixelStateCaptured(once, sz), sz), sz);
    assert CapturedFor(c, All, sz) == once && CapturedFor(once, All, sz) == twice;
    assert twice.samplerStates == once.samplerStates by {
      var v := MarkRows(MarkRows(c.samplerStates, 0, PixelSamplerCount, PixelSamplerStateTypes), PixelSamplerCount, sz.samplerCount, {DmapOffset});
      assert once.samplerStates == v;
      MarkRowsCommute(c.samplerStates, sz.samplerCount);
    }
    assert twice.textureStageStates == once.textureStageStates by {
      FillRowsIdempotent(c.textureStageStates, Range(0, sz.stageStateCount));
    }
    assert twice.flags == once.flags && twice.renderStates == once.renderStates;
    assert twice.samplers == once.samplers && twice.streamFreq == once.streamFreq;
  }

  /** The pixel and vertex sampler marks touch disjoint rows, so their order does not matter. */
  lemma MarkRowsCommute(rows: seq<set<nat>>, samplerCount: nat)
    ensures var pixelFirst := MarkRows(MarkRows(rows, 0, PixelSamplerCount, PixelSamplerStateTypes), PixelSamplerCount, samplerCount, {DmapOffset});
      MarkRows(MarkRows(pixelFirst, 0, PixelSamplerCount, PixelSamplerStateTypes), PixelSamplerCount, samplerCount, {DmapOffset}) == pixelFirst
  {
    var a := MarkRows(rows, 0, PixelSamplerCount, PixelSamplerStateTypes);
    var pixelFirst := MarkRows(a, PixelSamplerCount, samplerCount, {DmapOffset});
    var b := MarkRows(pixelFirst, 0, PixelSamplerCount, PixelSamplerStateTypes);
    var again := MarkRows(b, PixelSamplerCount, samplerCount, {DmapOffset});
    assert forall k :: 0 <= k < |again| ==> again[k] == pixelFirst[k];
  }

  /** Marks only ever accumulate: inclusion chains. */
  lemma IncludedTransitive(a: CaptureMask, b: CaptureMask, c: CaptureMask)
    requires Included(a, b) && Included(b, c)
    ensures Included(a, c)
  {
    assert RowsIncluded(a.samplerStates, c.samplerStates) by {
      forall k | 0 <= k < |a.samplerStates| ensures a.samplerStates[k] <= c.samplerStates[k] {
        assert a.samplerStates[k] <= b.samplerStates[k];
      }
    }
    assert RowsIncluded(a.textureStageStates, c.textureStageStates) by {
      forall k | 0 <= k < |a.textureStageStates| ensures a.textureStageStates[k] <= c.textureStageStates[k] {
        assert a.textureStageStates[k] <= b.textureStageStates[k];
      }
    }
  }

  /** The PixelState marks only add, and stay inside their bitsets. */
  lemma PixelStateOnlyAdds(c: CaptureMask, sz: Sizes)
    requires SizesOk(sz) && WithinSizes(c, sz)
    ensures Included(c, PixelStateCaptured(c, sz)) && WithinSizes(PixelStateCaptured(c, sz), sz)
  {
    var r := PixelStateCaptured(c, sz);
    assert PixelSamplerStateTypes <= Range(0, sz.samplerStateCount);
    forall k | 0 <= k < |r.samplerStates|
      ensures c.samplerStates[k] <= r.samplerStates[k] <= Range(0, sz.samplerStateCount)
    {
    }
    forall k | 0 <= k < |r.textureStageStates|
      ensures c.textureStageStates[k] <= r.textureStageStates[k] <= Range(0, sz.stageStateCount)
    {
    }
  }

  /** The VertexState marks only add, and stay inside their bitsets. */
  lemma VertexStateOnlyAdds(c: CaptureMask, sz: Sizes)
    requires SizesOk(sz) && WithinSizes(c, sz)
    ensures Included(c, VertexStateCaptured(c, sz)) && WithinSizes(VertexStateCaptured(c, sz), sz)
  {
    var r := VertexStateCaptured(c, sz);
    assert DmapOffset in Range(0, sz.samplerStateCount);
    forall k | 0 <= k < |r.samplerStates|
      ensures c.samplerStates[k] <= r.samplerStates[k] <= Range(0, sz.samplerStateCount)
    {
    }
    assert RowsIncluded(c.textureStageStates, r.textureStageStates);
  }

  /** The marks only an All block sets only add, and stay inside their bitsets. */
  lemma AllOnlyOnlyAdds(c: CaptureMask, sz: Sizes)
    requires SizesOk(sz) && WithinSizes(c, sz)
    ensures Included(c, AllOnlyCaptured(c, sz)) && WithinSizes(AllOnlyCaptured(c, sz), sz)
  {
    var r := AllOnlyCaptured(c, sz);
    assert RowsIncluded(c.samplerStates, r.samplerStates);
    assert RowsIncluded(c.textureStageStates, r.textureStageStates);
  }

  /** Marking the pixel samplers keeps every bit inside its bitset. */
  lemma PixelSamplersWithin(c: CaptureMask, sz: Sizes)
    requires SizesOk(sz) && WithinSizes(c, sz)
    ensures WithinSizes(PixelSamplerStatesCaptured(c), sz)
  {
    var r := PixelSamplerStatesCaptured(c);
    forall k | 0 <= k < |r.samplerStates|
      ensures r.samplerStates[k] <= Range(0, sz.samplerStateCount)
    {
    }
  }

  /** Marking the vertex samplers keeps every bit inside its bitset. */
  lemma VertexSamplersWithin(c: CaptureMask, sz: Sizes)
    requires SizesOk(sz) && WithinSizes(c, sz)
    ensures WithinSizes(VertexSamplerStatesCaptured(c, sz), sz)
  {
    var r := VertexSamplerStatesCaptured(c, sz);
    forall k | 0 <= k < |r.samplerStates|
      ensures r.samplerStates[k] <= Range(0, sz.samplerStateCount)
    {
    }
  }

  /**
   * Capturing only adds marks, and keeps every mark inside its bitset
   * when the sizes fit the listed states.
   */
  lemma CaptureTypeOnlyAdds(c: CaptureMask, t: StateBlockType, sz: Sizes)
    requires SizesOk(sz) && WithinSizes(c, sz)
    ensures Included(c, CapturedFor(c, t, sz))
    ensures WithinSizes(CapturedFor(c, t, sz), sz)
  {
    var p := if t == PixelState || t == All then PixelStateCaptured(c, sz) else c;
    if t == PixelState || t == All {
      PixelStateOnlyAdds(c, sz);
    } else {
      assert Included(c, p) by {
        assert RowsIncluded(c.samplerStates, p.samplerStates);
        assert RowsIncluded(c.textureStageStates, p.textureStageStates);
      }
    }
    var v := if t == VertexState || t == All then VertexStateCaptured(p, sz) else p;
    if t == VertexState || t == All {
      VertexStateOnlyAdds(p, sz);
      IncludedTransitive(c, p, v);
    }
    if t == All {
      AllOnlyOnlyAdds(v, sz);
      IncludedTransitive(c, v, AllOnlyCaptured(v, sz));
    }
  }

  /**
   * What a PixelState block marks: the pixel render states, samplers 0 ..
   * 16 with their twelve pixel sampler states, all pixel-shader constants
   * and every texture stage state.
   */
  lemma PixelStateMarks(c: CaptureMask, sz: Sizes)
    requires |c.samplerStates| == sz.samplerCount && sz.samplerCount >= PixelSamplerCount
    ensures var r := CapturedFor(c, PixelState, sz);
      && {RenderStates, SamplerStates, PixelShader, PsConstants, TextureStages} <= r.flags
      && PixelRenderStateTypes <= r.renderStates
      && (forall i :: 0 <= i < PixelSamplerCount ==> i in r.samplers && PixelSamplerStateTypes <= r.samplerStates[i])
      && r.psConsts == AllConsts(sz.ps)
      && r.textureStages == Range(0, sz.stageCount)
      && (forall s :: 0 <= s < |r.textureStageStates| ==> r.textureStageStates[s] == Range(0, sz.stageStateCount))
  {
    var r := CapturedFor(c, PixelState, sz);
    assert r == PixelStateCaptured(c, sz);
    assert r.samplerStates == MarkRows(c.samplerStates, 0, PixelSamplerCount, PixelSamplerStateTypes);
    forall i | 0 <= i < PixelSamplerCount
      ensures i in r.samplers && PixelSamplerStateTypes <= r.samplerStates[i]
    {
      assert i in Range(0, PixelSamplerCount);
    }
  }

  /** The groups only an All block marks are as they were. */
  predicate KeepsAllOnlyGroups(before: CaptureMask, after: CaptureMask) {
    after.flags * AllOnlyFlags == before.flags * AllOnlyFlags
    && after.textures == before.textures && after.vertexBuffers == before.vertexBuffers
    && after.clipPlanes == before.clipPlanes && after.transforms == before.transforms
  }

  /** The vertex-side groups are as they were: samplers from 17 on, stream frequencies, the vertex shader and its constants. */
  predicate KeepsVertexSide(before: CaptureMask, after: CaptureMask) {
    |after.samplerStates| == |before.samplerStates|
    && (forall i :: PixelSamplerCount <= i < |after.samplerStates| ==> after.samplerStates[i] == before.samplerStates[i])
    && after.vsConsts == before.vsConsts && after.streamFreq == before.streamFreq
    && after.flags * {VertexDecl, StreamFreq, VertexShader, VsConstants} == before.flags * {VertexDecl, StreamFreq, VertexShader, VsConstants}
  }

  /** The pixel-side groups are as they were: samplers 0 .. 16, texture stages, the pixel shader and its constants. */
  predicate KeepsPixelSide(before: CaptureMask, after: CaptureMask) {
    |after.samplerStates| == |before.samplerStates|
    && (forall i :: 0 <= i < PixelSamplerCount && i < |after.samplerStates| ==> after.samplerStates[i] == before.samplerStates[i])
    && after.psConsts == before.psConsts
    && after.textureStages == before.textureStages && after.textureStageStates == before.textureStageStates
    && after.flags * {PixelShader, PsConstants, TextureStages} == before.flags * {PixelShader, PsConstants, TextureStages}
  }

  /** What a PixelState block leaves alone: the vertex-side groups and the groups of an All block. */
  lemma PixelStateKeeps(c: CaptureMask, sz: Sizes)
    ensures KeepsVertexSide(c, CapturedFor(c, PixelState, sz))
    ensures KeepsAllOnlyGroups(c, CapturedFor(c, PixelState, sz))
  {
    var r := PixelStateCaptured(c, sz);
    assert CapturedFor(c, PixelState, sz) == r;
    var added := {RenderStates, SamplerStates, PixelShader, PsConstants, TextureStages};
    assert r.flags == c.flags + added;
    AddOutside(c.flags, added, {VertexDecl, StreamFreq, VertexShader, VsConstants});
    AddOutside(c.flags, added, AllOnlyFlags);
  }

  /**
   * What a VertexState block marks: the vertex render states, the samplers
   * from 17 on with DMAPOFFSET added, all vertex-shader constants, the
   * vertex declaration and every stream frequency.
   */
  lemma VertexStateMarks(c: CaptureMask, sz: Sizes)
    requires |c.samplerStates| == sz.samplerCount
    ensures var r := CapturedFor(c, VertexState, sz);
      && {RenderStates, SamplerStates, VertexShader, VsConstants, VertexDecl, StreamFreq} <= r.flags
      && VertexRenderStateTypes <= r.renderStates
      && (forall i :: PixelSamplerCount <= i < sz.samplerCount ==> i in r.samplers && r.samplerStates[i] == c.samplerStates[i] + {DmapOffset})
      && r.vsConsts == AllConsts(sz.vs)
      && Range(0, sz.streamCount) <= r.streamFreq
  {
    var r := CapturedFor(c, VertexState, sz);
    assert r == VertexStateCaptured(c, sz);
    assert r.samplerStates == MarkRows(c.samplerStates, PixelSamplerCount, sz.samplerCount, {DmapOffset});
    forall i | PixelSamplerCount <= i < sz.samplerCount
      ensures i in r.samplers
    {
      assert i in Range(PixelSamplerCount, sz.samplerCount);
    }
  }

  /** What a VertexState block leaves alone: the pixel-side groups and the groups of an All block. */
  lemma VertexStateKeeps(c: CaptureMask, sz: Sizes)
    ensures KeepsPixelSide(c, CapturedFor(c, VertexState, sz))
    ensures KeepsAllOnlyGroups(c, CapturedFor(c, VertexState, sz))
  {
    var r := VertexStateCaptured(c, sz);
    assert CapturedFor(c, VertexState, sz) == r;
    var added := {RenderStates, SamplerStates, VertexShader, VsConstants, VertexDecl, StreamFreq};
    assert r.flags == c.flags + added;
    AddOutside(c.flags, added, {PixelShader, PsConstants, TextureStages});
    AddOutside(c.flags, added, AllOnlyFlags);
  }

  /**
   * Textures, vertex buffers, indices, viewport, scissor rect, clip planes,
   * transforms and material are marked by an All block and by no other.
   */
  lemma AllOnlyGroups(c: CaptureMask, t: StateBlockType, sz: Sizes)
    ensures var r := CapturedFor(c, t, sz);
      && (t == All ==> AllOnlyFlags <= r.flags && r.textures == Range(0, sz.samplerCount)
                       && r.vertexBuffers == Range(0, sz.streamCount) && r.clipPlanes == Range(0, sz.clipPlaneCount)
                       && r.transforms == Range(0, sz.transformCount))
      && (t != All ==> KeepsAllOnlyGroups(c, r))
  {
    if t == All {
      assert CapturedFor(c, t, sz) == AllOnlyCaptured(VertexStateCaptured(PixelStateCaptured(c, sz), sz), sz);
    } else if t == PixelState {
      PixelStateKeeps(c, sz);
    } else if t == VertexState {
      VertexStateKeeps(c, sz);
    }
  }

  /** An All block marks at least what a PixelState and a VertexState block mark. */
  lemma AllCoversPixelAndVertex(c: CaptureMask, sz: Sizes)
    requires SizesOk(sz) && WithinSizes(c, sz)
    ensures Included(CapturedFor(c, PixelState, sz), CapturedFor(c, All, sz))
    ensures Included(CapturedFor(c, VertexState, sz), CapturedFor(c, All, sz))
  {
    var p := PixelStateCaptured(c, sz);
    var pv := VertexStateCaptured(p, sz);
    var a := AllOnlyCaptured(pv, sz);
    PixelStateOnlyAdds(c, sz);
    VertexStateOnlyAdds(p, sz);
    AllOnlyOnlyAdds(pv, sz);
    IncludedTransitive(p, pv, a);
    var v := VertexStateCaptured(c, sz);
    VertexStateMonotone(c, p, sz);
    IncludedTransitive(v, pv, a);
    assert CapturedFor(c, PixelState, sz) == p && CapturedFor(c, VertexState, sz) == v && CapturedFor(c, All, sz) == a;
  }

  /** The VertexState marks preserve inclusion between masks. */
  lemma VertexStateMonotone(small: CaptureMask, large: CaptureMask, sz: Sizes)
    requires Included(small, large)
    ensures Included(VertexStateCaptured(small, sz), VertexStateCaptured(large, sz))
  {
    var s := VertexStateCaptured(small, sz);
    var l := VertexStateCaptured(large, sz);
    forall k | 0 <= k < |s.samplerStates| ensures s.samplerStates[k] <= l.samplerStates[k] {
      assert small.samplerStates[k] <= large.samplerStates[k];
    }
  }

  /** The block's bool-constant word after `Set*BoolBitfield`: the bits of `mask` come from `bits`. */
  function MaskedWord(word: bv32, mask: bv32, bits: bv32): (r: bv32)
    ensures r & !mask == word & !mask
    ensures r & mask == bits & mask
  {
    (word & !mask) | (bits & mask)
  }

  /** The two properties above determine the word: nothing else satisfies both. */
  lemma MaskedWordUnique(word: bv32, mask: bv32, bits: bv32, r: bv32)
    requires r & !mask == word & !mask && r & mask == bits & mask
    ensures r == MaskedWord(word, mask, bits)
  {
    assert r == (r & !mask) | (r & mask);
  }

  /** A later masked write over the same mask replaces the earlier one. */
  lemma MaskedWordOverwrite(word: bv32, mask: bv32, first: bv32, second: bv32)
    ensures MaskedWord(MaskedWord(word, mask, first), mask, second) == MaskedWord(word, mask, second)
  {
    var r := MaskedWord(MaskedWord(word, mask, first), mask, second);
    MaskedWordUnique(word, mask, second, r);
  }

  /** `row` with entry `i` replaced by `value`. */
  function Store(row: seq<nat>, i: nat, value: nat): seq<nat>
    requires i < |row|
  {
    row[i := value]
  }

  /** A vertex buffer binding as `SetStreamSource` records it. */
  datatype StreamSource = StreamSource(buffer: Handle, offset: nat, stride: nat)

  datatype Rect = Rect(left: int, top: int, right: int, bottom: int)

  /**
   * A floating-point structure the block stores without looking inside it
   * (a matrix, a material, a viewport).
   */
  type Blob = seq<real>

  /** What `ApplyOrCapture` was asked to do, and whether the block said it was applying. */
  datatype BlockAction = Captured | Applied(applying: bool)

  class D3D9StateBlock {
    const sizes: Sizes

    // m_state: the recorded values.
    var vertexDecl: Handle
    var indices: Handle
    var renderStates: seq<nat>
    var samplerStates: seq<seq<nat>>
    var streams: seq<StreamSource>
    var streamFreq: seq<nat>
    var textures: seq<Handle>
    var vertexShader: Handle
    var pixelShader: Handle
    var material: Blob
    var transforms: seq<Blob>
    var textureStages: seq<seq<nat>>
    var viewport: Blob
    var scissorRect: Rect
    var clipPlanes: seq<seq<real>>
    var vsBools: seq<bv32>
    var psBools: seq<bv32>

    // m_captures and m_applying.
    var captures: CaptureMask
    var applying: bool

    /** The `ApplyOrCapture` passes made so far, in order. */
    var log: seq<BlockAction>

    ghost predicate Valid()
      reads this
    {
      SizesOk(sizes) && WithinSizes(captures, sizes)
      && |renderStates| == sizes.renderStateCount
      && |samplerStates| == sizes.samplerCount
      && (forall i :: 0 <= i < |samplerStates| ==> |samplerStates[i]| == sizes.samplerStateCount)
      && |streams| == sizes.streamCount && |streamFreq| == sizes.streamCount
      && |textures| == sizes.samplerCount && |transforms| == sizes.transformCount
      && |textureStages| == sizes.stageCount
      && (forall s :: 0 <= s < |textureStages| ==> |textureStages[s]| == sizes.stageStateCount)
      && |clipPlanes| == sizes.clipPlaneCount
    }

    /**
     * A block of type `t` over zero-initialised state: marks what `t`
     * covers and, unless `t` is None, captures once.
     */
    constructor(sz: Sizes, t: StateBlockType, vsBoolWords: nat, psBoolWords: nat)
      requires SizesOk(sz)
      ensures Valid() && sizes == sz && !applying
      ensures captures == CapturedFor(NoCaptures(sz), t, sz)
      ensures log == if t != NoneType then [Captured] else []
    {
      sizes := sz;
      vertexDecl, indices, vertexShader, pixelShader := NullHandle, NullHandle, NullHandle, NullHandle;
      renderStates := Zeros(sz.renderStateCount);
      samplerStates := ZeroRows(sz.samplerCount, sz.samplerStateCount);
      streams := seq(sz.streamCount, _ => StreamSource(NullHandle, 0, 0));
      streamFreq := Zeros(sz.streamCount);
      textures := seq(sz.samplerCount, _ => NullHandle);
      material, viewport := [], [];
      transforms := seq(sz.transformCount, _ => []);
      textureStages := ZeroRows(sz.stageCount, sz.stageStateCount);
      scissorRect := Rect(0, 0, 0, 0);
      clipPlanes := seq(sz.clipPlaneCount, _ => [0.0, 0.0, 0.0, 0.0]);
      vsBools := seq(vsBoolWords, _ => 0);
      psBools := seq(psBoolWords, _ => 0);
      captures := NoCaptures(sz);
      applying := false;
      log := [];
      new;
      NoCapturesWithin(sz);
      CaptureType(t);
    }

    /** `Capture`: one capture pass. */
    method Capture() returns (hr: HResult)
      modifies this`log
      ensures hr == S_OK && log == old(log) + [Captured]
    {
      log := log + [Captured];
      hr := S_OK;
    }

    /** `Apply`: one apply pass, with `m_applying` set for its duration and cleared after. */
    method Apply() returns (hr: HResult)
      modifies this`applying, this`log
      ensures hr == S_OK && !applying
      ensures log == old(log) + [Applied(true)]
    {
      applying := true;
      log := log + [Applied(applying)];
      applying := false;
      hr := S_OK;
    }

    method SetVertexDeclaration(decl: Handle) returns (hr: HResult)
      requires Valid()
      modifies this`vertexDecl, this`captures
      ensures Valid() && hr == S_OK && vertexDecl == decl
      ensures captures == old(captures).(flags := old(captures).flags + {VertexDecl})
    {
      vertexDecl := decl;
      captures := captures.(flags := captures.flags + {VertexDecl});
      hr := S_OK;
    }

    method SetIndices(buffer: Handle) returns (hr: HResult)
      requires Valid()
      modifies this`indices, this`captures
      ensures Valid() && hr == S_OK && indices == buffer
      ensures captures == old(captures).(flags := old(captures).flags + {Indices})
    {
      indices := buffer;
      captures := captures.(flags := captures.flags + {Indices});
      hr := S_OK;
    }

    /** Stores `value` for render state `state` and marks that state. */
    method SetRenderState(state: nat, value: nat) returns (hr: HResult)
      requires Valid() && state < |renderStates|
      modifies this`renderStates, this`captures
      ensures Valid() && hr == S_OK
      ensures renderStates == old(renderStates)[state := value]
      ensures captures == old(captures).(flags := old(captures).flags + {RenderStates},
                                         renderStates := old(captures).renderStates + {state})
    {
      renderStates := renderStates[state := value];
      captures := captures.(flags := captures.flags + {RenderStates}, renderStates := captures.renderStates + {state});
      hr := S_OK;
    }

    /** Stores `value` for state `t` of `sampler`; marks the group, the sampler and the (sampler, state) bit. */
    method SetStateSamplerState(sampler: nat, t: nat, value: nat) returns (hr: HResult)
      requires Valid() && sampler < |samplerStates| && t < |samplerStates[sampler]|
      modifies this`samplerStates, this`captures
      ensures Valid() && hr == S_OK
      ensures samplerStates == old(samplerStates)[sampler := Store(old(samplerStates)[sampler], t, value)]
      ensures captures == old(captures).(flags := old(captures).flags + {SamplerStates},
                                         samplers := old(captures).samplers + {sampler},
                                         samplerStates := old(captures).samplerStates[sampler := old(captures).samplerStates[sampler] + {t}])
    {
      var row: seq<nat> := samplerStates[sampler][t := value];
      samplerStates := samplerStates[sampler := row];
      var rows := captures.samplerStates;
      captures := captures.(flags := captures.flags + {SamplerStates}, samplers := captures.samplers + {sampler},
                            samplerStates := rows[sampler := rows[sampler] + {t}]);
      hr := S_OK;
    }

    /** Records buffer, offset and stride for `stream` and marks its vertex-buffer bit. */
    method SetStreamSource(stream: nat, buffer: Handle, offset: nat, stride: nat) returns (hr: HResult)
      requires Valid() && stream < |streams|
      modifies this`streams, this`captures
      ensures Valid() && hr == S_OK
      ensures streams == old(streams)[stream := StreamSource(buffer, offset, stride)]
      ensures captures == old(captures).(flags := old(captures).flags + {VertexBuffers},
                                         vertexBuffers := old(captures).vertexBuffers + {stream})
    {
      streams := streams[stream := streams[stream].(buffer := buffer)];
      streams := streams[stream := streams[stream].(offset := offset, stride := stride)];
      captures := captures.(flags := captures.flags + {VertexBuffers}, vertexBuffers := captures.vertexBuffers + {stream});
      hr := S_OK;
    }

    method SetStreamSourceFreq(stream: nat, setting: nat) returns (hr: HResult)
      requires Valid() && stream < |streamFreq|
      modifies this`streamFreq, this`captures
      ensures Valid() && hr == S_OK
      ensures streamFreq == old(streamFreq)[stream := setting]
      ensures captures == old(captures).(flags := old(captures).flags + {StreamFreq},
                                         streamFreq := old(captures).streamFreq + {stream})
    {
      streamFreq := streamFreq[stream := setting];
      captures := captures.(flags := captures.flags + {StreamFreq}, streamFreq := captures.streamFreq + {stream});
      hr := S_OK;
    }

    method SetStateTexture(sampler: nat, texture: Handle) returns (hr: HResult)
      requires Valid() && sampler < |textures|
      modifies this`textures, this`captures
      ensures Valid() && hr == S_OK
      ensures textures == old(textures)[sampler := texture]
      ensures captures == old(captures).(flags := old(captures).flags + {Textures},
                                         textures := old(captures).textures + {sampler})
    {
      textures := textures[sampler := texture];
      captures := captures.(flags := captures.flags + {Textures}, textures := captures.textures + {sampler});
      hr := S_OK;
    }

    method SetVertexShader(shader: Handle) returns (hr: HResult)
      requires Valid()
      modifies this`vertexShader, this`captures
      ensures Valid() && hr == S_OK && vertexShader == shader
      ensures captures == old(captures).(flags := old(captures).flags + {VertexShader})
    {
      vertexShader := shader;
      captures := captures.(flags := captures.flags + {VertexShader});
      hr := S_OK;
    }

    method SetPixelShader(shader: Handle) returns (hr: HResult)
      requires Valid()
      modifies this`pixelShader, this`captures
      ensures Valid() && hr == S_OK && pixelShader == shader
      ensures captures == old(captures).(flags := old(captures).flags + {PixelShader})
    {
      pixelShader := shader;
      captures := captures.(flags := captures.flags + {PixelShader});
      hr := S_OK;
    }

    method SetMaterial(m: Blob) returns (hr: HResult)
      requires Valid()
      modifies this`material, this`captures
      ensures Valid() && hr == S_OK && material == m
      ensures captures == old(captures).(flags := old(captures).flags + {Material})
    {
      material := m;
      captures := captures.(flags := captures.flags + {Material});
      hr := S_OK;
    }

    method SetStateTransform(idx: nat, matrix: Blob) returns (hr: HResult)
      requires Valid() && idx < |transforms|
      modifies this`transforms, this`captures
      ensures Valid() && hr == S_OK
      ensures transforms == old(transforms)[idx := matrix]
      ensures captures == old(captures).(flags := old(captures).flags + {Transforms},
                                         transforms := old(captures).transforms + {idx})
    {
      transforms := transforms[idx := matrix];
      captures := captures.(flags := captures.flags + {Transforms}, transforms := captures.transforms + {idx});
      hr := S_OK;
    }

    /** Stores `value` for state `t` of texture stage `stage`; marks the group, the stage and the (stage, state) bit. */
    method SetTextureStageState(stage: nat, t: nat, value: nat) returns (hr: HResult)
      requires Valid() && stage < |textureStages| && t < |textureStages[stage]|
      modifies this`textureStages, this`captures
      ensures Valid() && hr == S_OK
      ensures textureStages == old(textureStages)[stage := Store(old(textureStages)[stage], t, value)]
      ensures captures == old(captures).(flags := old(captures).flags + {TextureStages},
                                         textureStages := old(captures).textureStages + {stage},
                                         textureStageStates := old(captures).textureStageStates[stage := old(captures).textureStageStates[stage] + {t}])
    {
      var row: seq<nat> := textureStages[stage][t := value];
      textureStages := textureStages[stage := row];
      var rows := captures.textureStageStates;
      captures := captures.(flags := captures.flags + {TextureStages}, textureStages := captures.textureStages + {stage},
                            textureStageStates := rows[stage := rows[stage] + {t}]);
      hr := S_OK;
    }

    /**
     * Replaces transform `idx` by `matrix` times the stored transform;
     * `product` stands for the matrix multiplication.
     */
    method MultiplyStateTransform(idx: nat, matrix: Blob, product: (Blob, Blob) -> Blob) returns (hr: HResult)
      requires Valid() && idx < |transforms|
      modifies this`transforms, this`captures
      ensures Valid() && hr == S_OK
      ensures transforms == old(transforms)[idx := product(matrix, old(transforms)[idx])]
      ensures captures == old(captures).(flags := old(captures).flags + {Transforms},
                                         transforms := old(captures).transforms + {idx})
    {
      transforms := transforms[idx := product(matrix, transforms[idx])];
      captures := captures.(flags := captures.flags + {Transforms}, transforms := captures.transforms + {idx});
      hr := S_OK;
    }

    method SetViewport(vp: Blob) returns (hr: HResult)
      requires Valid()
      modifies this`viewport, this`captures
      ensures Valid() && hr == S_OK && viewport == vp
      ensures captures == old(captures).(flags := old(captures).flags + {Viewport})
    {
      viewport := vp;
      captures := captures.(flags := captures.flags + {Viewport});
      hr := S_OK;
    }

    method SetScissorRect(rect: Rect) returns (hr: HResult)
      requires Valid()
      modifies this`scissorRect, this`captures
      ensures Valid() && hr == S_OK && scissorRect == rect
      ensures captures == old(captures).(flags := old(captures).flags + {ScissorRect})
    {
      scissorRect := rect;
      captures := captures.(flags := captures.flags + {ScissorRect});
      hr := S_OK;
    }

    /** Copies the four plane coefficients into clip plane `index` and marks it. */
    method SetClipPlane(index: nat, plane: seq<real>) returns (hr: HResult)
      requires Valid() && index < |clipPlanes| && |plane| >= 4 && |clipPlanes[index]| == 4
      modifies this`clipPlanes, this`captures
      ensures Valid() && hr == S_OK
      ensures clipPlanes == old(clipPlanes)[index := plane[..4]]
      ensures captures == old(captures).(flags := old(captures).flags + {ClipPlanes},
                                         clipPlanes := old(captures).clipPlanes + {index})
    {
      var i := 0;
      while i < 4
        invariant 0 <= i <= 4
        invariant |clipPlanes| == |old(clipPlanes)| && |clipPlanes[index]| == 4
        invariant forall k :: 0 <= k < |clipPlanes| && k != index ==> clipPlanes[k] == old(clipPlanes)[k]
        invariant forall j :: 0 <= j < i ==> clipPlanes[index][j] == plane[j]
        invariant captures == old(captures)
      {
        clipPlanes := clipPlanes[index := clipPlanes[index][i := plane[i]]];
        i := i + 1;
      }
      assert clipPlanes[index] == plane[..4];
      assert clipPlanes == old(clipPlanes)[index := plane[..4]];
      captures := captures.(flags := captures.flags + {ClipPlanes}, clipPlanes := captures.clipPlanes + {index});
      hr := S_OK;
    }

    /** Writes the bits of `mask` in vertex bool-constant word `idx` from `bits`; marks nothing. */
    method SetVertexBoolBitfield(idx: nat, mask: bv32, bits: bv32) returns (hr: HResult)
      requires idx < |vsBools|
      modifies this`vsBools
      ensures hr == S_OK
      ensures vsBools == old(vsBools)[idx := MaskedWord(old(vsBools)[idx], mask, bits)]
    {
      vsBools := vsBools[idx := vsBools[idx] & !mask];
      vsBools := vsBools[idx := vsBools[idx] | (bits & mask)];
      hr := S_OK;
    }

    /** Writes the bits of `mask` in pixel bool-constant word `idx` from `bits`; marks nothing. */
    method SetPixelBoolBitfield(idx: nat, mask: bv32, bits: bv32) returns (hr: HResult)
      requires idx < |psBools|
      modifies this`psBools
      ensures hr == S_OK
      ensures psBools == old(psBools)[idx := MaskedWord(old(psBools)[idx], mask, bits)]
    {
      psBools := psBools[idx := psBools[idx] & !mask];
      psBools := psBools[idx := psBools[idx] | (bits & mask)];
      hr := S_OK;
    }

    method CapturePixelRenderStates()
      requires Valid()
      modifies this`captures
      ensures Valid() && captures == PixelRenderStatesCaptured(old(captures))
    {
      captures := captures.(flags := captures.flags + {RenderStates});
      captures := captures.(renderStates := captures.renderStates + PixelRenderStateTypes);
    }

    /** Marks samplers 0 .. 16, each with the twelve pixel sampler states. */
    method CapturePixelSamplerStates()
      requires Valid()
      modifies this`captures
      ensures Valid() && captures == PixelSamplerStatesCaptured(old(captures))
    {
      captures := captures.(flags := captures.flags + {SamplerStates});
      var i: nat := 0;
      while i < PixelSamplerCount
        invariant i <= PixelSamplerCount
        invariant captures == old(captures).(flags := old(captures).flags + {SamplerStates},
                                             samplers := old(captures).samplers + Range(0, i),
                                             samplerStates := MarkRows(old(captures).samplerStates, 0, i, PixelSamplerStateTypes))
      {
        var rows := captures.samplerStates;
        captures := captures.(samplers := captures.samplers + {i}, samplerStates := rows[i := rows[i] + PixelSamplerStateTypes]);
        assert Range(0, i) + {i} == Range(0, i + 1);
        assert captures.samplerStates == MarkRows(old(captures).samplerStates, 0, i + 1, PixelSamplerStateTypes);
        i := i + 1;
      }
      PixelSamplersWithin(old(captures), sizes);
    }

    method CapturePixelShaderStates()
      requires Valid()
      modifies this`captures
      ensures Valid() && captures == PixelShaderStatesCaptured(old(captures), sizes)
    {
      captures := captures.(flags := captures.flags + {PixelShader, PsConstants});
      captures := captures.(psConsts := AllConsts(sizes.ps));
    }

    method CaptureVertexRenderStates()
      requires Valid()
      modifies this`captures
      ensures Valid() && captures == VertexRenderStatesCaptured(old(captures))
    {
      captures := captures.(flags := captures.flags + {RenderStates});
      captures := captures.(renderStates := captures.renderStates + VertexRenderStateTypes);
    }

    /** Marks samplers 17 .. SamplerCount - 1, each with DMAPOFFSET only. */
    method CaptureVertexSamplerStates()
      requires Valid()
      modifies this`captures
      ensures Valid() && captures == VertexSamplerStatesCaptured(old(captures), sizes)
    {
      captures := captures.(flags := captures.flags + {SamplerStates});
      var i: nat := PixelSamplerCount;
      while i < sizes.samplerCount
        invariant PixelSamplerCount <= i <= sizes.samplerCount
        invariant captures == old(captures).(flags := old(captures).flags + {SamplerStates},
                                             samplers := old(captures).samplers + Range(PixelSamplerCount, i),
                                             samplerStates := MarkRows(old(captures).samplerStates, PixelSamplerCount, i, {DmapOffset}))
      {
        var rows := captures.samplerStates;
        captures := captures.(samplers := captures.samplers + {i}, samplerStates := rows[i := rows[i] + {DmapOffset}]);
        assert Range(PixelSamplerCount, i) + {i} == Range(PixelSamplerCount, i + 1);
        assert captures.samplerStates == MarkRows(old(captures).samplerStates, PixelSamplerCount, i + 1, {DmapOffset});
        i := i + 1;
      }
      VertexSamplersWithin(old(captures), sizes);
    }

    method CaptureVertexShaderStates()
      requires Valid()
      modifies this`captures
      ensures Valid() && captures == VertexShaderStatesCaptured(old(captures), sizes)
    {
      captures := captures.(flags := captures.flags + {VertexShader, VsConstants});
      captures := captures.(vsConsts := AllConsts(sizes.vs));
    }

    /** The PixelState / All branch of `CaptureType`. */
    method CapturePixelState()
      requires Valid()
      modifies this`captures
      ensures Valid() && captures == PixelStateCaptured(old(captures), sizes)
    {
      CapturePixelRenderStates();
      CapturePixelSamplerStates();
      CapturePixelShaderStates();
      captures := captures.(flags := captures.flags + {TextureStages}, textureStages := Range(0, sizes.stageCount));
      FillTextureStageStates();
      PixelStateOnlyAdds(old(captures), sizes);
    }

    /** The stage-state loop of `CapturePixelState`: every state of every stage is marked. */
    method FillTextureStageStates()
      modifies this`captures
      ensures captures == old(captures).(textureStageStates := FillRows(old(captures).textureStageStates, Range(0, sizes.stageStateCount)))
    {
      var rows := captures.textureStageStates;
      var s: nat := 0;
      while s < |rows|
        invariant s <= |rows|
        invariant captures == old(captures).(textureStageStates := captures.textureStageStates)
        invariant |captures.textureStageStates| == |rows|
        invariant forall k :: 0 <= k < s ==> captures.textureStageStates[k] == Range(0, sizes.stageStateCount)
        invariant forall k :: s <= k < |rows| ==> captures.textureStageStates[k] == rows[k]
      {
        captures := captures.(textureStageStates := captures.textureStageStates[s := Range(0, sizes.stageStateCount)]);
        s := s + 1;
      }
      assert captures.textureStageStates == FillRows(rows, Range(0, sizes.stageStateCount));
    }

    /** The VertexState / All branch of `CaptureType`. */
    method CaptureVertexState()
      requires Valid()
      modifies this`captures
      ensures Valid() && captures == VertexStateCaptured(old(captures), sizes)
    {
      CaptureVertexRenderStates();
      CaptureVertexSamplerStates();
      CaptureVertexShaderStates();
      captures := captures.(flags := captures.flags + {VertexDecl, StreamFreq});
      MarkStreamFreqs();
      VertexStateOnlyAdds(old(captures), sizes);
    }

    /** The stream-frequency loop of `CaptureVertexState`: every stream is marked. */
    method MarkStreamFreqs()
      modifies this`captures
      ensures captures == old(captures).(streamFreq := old(captures).streamFreq + Range(0, sizes.streamCount))
    {
      var i: nat := 0;
      while i < sizes.streamCount
        invariant i <= sizes.streamCount
        invariant captures == old(captures).(streamFreq := old(captures).streamFreq + Range(0, i))
      {
        captures := captures.(streamFreq := captures.streamFreq + {i});
        assert Range(0, i) + {i} == Range(0, i + 1);
        i := i + 1;
      }
    }

    /**
     * `CaptureType`: marks the groups type `t` covers, then captures once
     * unless `t` is None.
     */
    method CaptureType(t: StateBlockType)
      requires Valid()
      modifies this`captures, this`log
      ensures Valid()
      ensures captures == CapturedFor(old(captures), t, sizes)
      ensures log == old(log) + if t != NoneType then [Captured] else []
    {
      ghost var c0 := captures;
      if t == PixelState || t == All {
        CapturePixelState();
      }
      ghost var p := captures;
      assert p == if t == PixelState || t == All then PixelStateCaptured(c0, sizes) else c0;
      if t == VertexState || t == All {
        CaptureVertexState();
      }
      assert captures == if t == VertexState || t == All then VertexStateCaptured(p, sizes) else p;
      if t == All {
        AllOnlyOnlyAdds(captures, sizes);
        captures := captures.(flags := captures.flags + AllOnlyFlags, textures := Range(0, sizes.samplerCount),
                              vertexBuffers := Range(0, sizes.streamCount), clipPlanes := Range(0, sizes.clipPlaneCount),
                              transforms := Range(0, sizes.transformCount));
      }
      if t != NoneType {
        var _ := Capture();
      }
    }
  }
}
