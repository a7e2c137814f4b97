/**
 * The context's getters: each reads back part of the binding snapshot and
 * changes nothing, so each is a function of the snapshot. Single-field
 * getters (`VSGetShader`, `IAGetInputLayout`, `RSGetState`, ...) are the
 * snapshot's fields themselves.
 */
module ContextQueries {
  import opened Common
  import opened BufferSlices
  import opened ContextState
  import opened SlotUpdates

  /**
   * `n` consecutive slots from `start`: what `IAGetVertexBuffers`, the
   * per-stage `Get*ConstantBuffers`, `Get*Samplers` and
   * `Get*ShaderResources`, and `OMGetRenderTargets` copy out.
   */
  function SlotRange<T>(slots: seq<T>, start: nat, n: nat): (r: seq<T>)
    requires start + n <= |slots|
    ensures |r| == n
    ensures forall i :: 0 <= i < n ==> r[i] == slots[start + i]
  {
    slots[start..start + n]
  }

  /** Reading back a range just written returns exactly the values written. */
  lemma SetThenGetSlots<T>(cur: seq<T>, start: nat, nw: seq<T>)
    requires start + |nw| <= |cur|
    ensures SlotRange(Splice(cur, start, nw), start, |nw|) == nw
  {
    var r := SlotRange(Splice(cur, start, nw), start, |nw|);
    forall i | 0 <= i < |nw| ensures r[i] == nw[i] {
    }
  }

  /**
   * Reading back the render targets after `OMSetRenderTargets` returns the
   * views given, and every slot beyond them reads as unbound.
   */
  lemma SetThenGetRenderTargets(views: seq<Handle>)
    requires |views| <= RenderTargetSlots
    ensures SlotRange(PadTo(views, RenderTargetSlots, NullHandle), 0, |views|) == views
    ensures forall i :: |views| <= i < RenderTargetSlots ==> PadTo(views, RenderTargetSlots, NullHandle)[i] == NullHandle
  {
    var r := SlotRange(PadTo(views, RenderTargetSlots, NullHandle), 0, |views|);
    forall i | 0 <= i < |views| ensures r[i] == views[i] {
    }
  }

  /**
   * `RSGetViewports`: with an output array of `capacity` entries, the
   * stored viewports and zeroed entries past the stored count; with no
   * array, nothing. The stored count is reported either way.
   */
  function RSGetViewports(rs: RsState, capacity: Option<nat>): (r: (seq<Viewport>, nat))
    requires rs.numViewports <= |rs.viewports|
    ensures r.1 == rs.numViewports
    ensures capacity.None? ==> r.0 == []
    ensures capacity.Some? ==> (|r.0| == capacity.value
      && forall i :: 0 <= i < capacity.value ==> r.0[i] == if i < rs.numViewports then rs.viewports[i] else ZeroViewport)
  {
    match capacity
    case None => ([], rs.numViewports)
    case Some(n) => (seq(n, i requires 0 <= i < n => if i < rs.numViewports then rs.viewports[i] else ZeroViewport), rs.numViewports)
  }

  /** `RSGetScissorRects`: as `RSGetViewports`, for the scissor rectangles. */
  function RSGetScissorRects(rs: RsState, capacity: Option<nat>): (r: (seq<Rect>, nat))
    requires rs.numScissors <= |rs.scissors|
    ensures r.1 == rs.numScissors
    ensures capacity.None? ==> r.0 == []
    ensures capacity.Some? ==> (|r.0| == capacity.value
      && forall i :: 0 <= i < capacity.value ==> r.0[i] == if i < rs.numScissors then rs.scissors[i] else ZeroRect)
  {
    match capacity
    case None => ([], rs.numScissors)
    case Some(n) => (seq(n, i requires 0 <= i < n => if i < rs.numScissors then rs.scissors[i] else ZeroRect), rs.numScissors)
  }

  /** Viewports set by `RSSetViewports` read back unchanged, with their count. */
  lemma SetThenGetViewports(rs: RsState, vps: seq<Viewport>)
    requires |vps| <= |rs.viewports|
    ensures RSGetViewports(rs.(numViewports := |vps|, viewports := Splice(rs.viewports, 0, vps)), Some(|vps|)) == (vps, |vps|)
  {
    var r := RSGetViewports(rs.(numViewports := |vps|, viewports := Splice(rs.viewports, 0, vps)), Some(|vps|));
    assert r.0 == vps;
  }

  /** Scissor rectangles set by `RSSetScissorRects` read back unchanged, with their count. */
  lemma SetThenGetScissorRects(rs: RsState, rects: seq<Rect>)
    requires |rects| <= |rs.scissors|
    ensures RSGetScissorRects(rs.(numScissors := |rects|, scissors := Splice(rs.scissors, 0, rects)), Some(|rects|)) == (rects, |rects|)
  {
    var r := RSGetScissorRects(rs.(numScissors := |rects|, scissors := Splice(rs.scissors, 0, rects)), Some(|rects|));
    assert r.0 == rects;
  }
}
