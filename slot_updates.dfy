/**
 * The per-slot change detection shared by `SetConstantBuffers`,
 * `SetSamplers` and `SetShaderResources`: a run of new values is written
 * over a slot array, and a bind command is recorded only for the slots
 * whose value actually changes.
 */
module SlotUpdates {
  import opened Commands

  /** The slot array with `nw` written from `start` on. */
  function Splice<T>(cur: seq<T>, start: nat, nw: seq<T>): (r: seq<T>)
    requires start + |nw| <= |cur|
    ensures |r| == |cur|
    ensures forall i :: 0 <= i < |r| ==> r[i] == if start <= i < start + |nw| then nw[i - start] else cur[i]
  {
    cur[..start] + nw + cur[start + |nw|..]
  }

  /**
   * The bind commands a run of slot writes records: one, built by `bind`
   * from the slot index and the new value, for each slot whose new value
   * differs from the stored one, in slot order.
   */
  function ChangedBinds<T(==)>(cur: seq<T>, start: nat, nw: seq<T>, bind: (nat, T) -> Cmd): (r: seq<Cmd>)
    requires start + |nw| <= |cur|
    ensures |r| <= |nw|
    ensures nw != [] && cur[start + |nw| - 1] != nw[|nw| - 1] ==> r != [] && r[|r| - 1] == bind(start + |nw| - 1, nw[|nw| - 1])
    decreases |nw|
  {
    if nw == [] then []
    else
      var n := |nw| - 1;
      ChangedBinds(cur, start, nw[..n], bind) + (if cur[start + n] != nw[n] then [bind(start + n, nw[n])] else [])
  }

  /** Writing a run of values records nothing exactly when every slot already held its new value. */
  lemma ChangedBindsEmptyIff<T>(cur: seq<T>, start: nat, nw: seq<T>, bind: (nat, T) -> Cmd)
    requires start + |nw| <= |cur|
    ensures ChangedBinds(cur, start, nw, bind) == [] <==> nw == cur[start..start + |nw|]
  {
    ChangedBindsNoneChanged(cur, start, nw, bind);
    assert nw == cur[start..start + |nw|] <==> forall k :: 0 <= k < |nw| ==> nw[k] == cur[start + k];
  }

  /** The slot-by-slot form of the above: no bind is recorded exactly when no slot changes. */
  lemma {:induction false} ChangedBindsNoneChanged<T>(cur: seq<T>, start: nat, nw: seq<T>, bind: (nat, T) -> Cmd)
    requires start + |nw| <= |cur|
    ensures ChangedBinds(cur, start, nw, bind) == [] <==> forall k :: 0 <= k < |nw| ==> nw[k] == cur[start + k]
    decreases |nw|
  {
    if nw != [] {
      var n := |nw| - 1;
      var front := nw[..n];
      ChangedBindsNoneChanged(cur, start, front, bind);
      if cur[start + n] == nw[n] {
        assert ChangedBinds(cur, start, nw, bind) == ChangedBinds(cur, start, front, bind);
        assert (forall k :: 0 <= k < |nw| ==> nw[k] == cur[start + k])
            <==> (forall k :: 0 <= k < n ==> front[k] == cur[start + k]);
      }
    }
  }

  /** One bind is recorded per slot whose value changes, so the count of binds is the count of changed slots. */
  function ChangedCount<T(==)>(cur: seq<T>, start: nat, nw: seq<T>): (n: nat)
    requires start + |nw| <= |cur|
    ensures n <= |nw|
    decreases |nw|
  {
    if nw == [] then 0
    else ChangedCount(cur, start, nw[..|nw| - 1]) + (if cur[start + |nw| - 1] != nw[|nw| - 1] then 1 else 0)
  }

  lemma {:induction false} ChangedBindsCount<T>(cur: seq<T>, start: nat, nw: seq<T>, bind: (nat, T) -> Cmd)
    requires start + |nw| <= |cur|
    ensures |ChangedBinds(cur, start, nw, bind)| == ChangedCount(cur, start, nw)
    decreases |nw|
  {
    if nw != [] {
      ChangedBindsCount(cur, start, nw[..|nw| - 1], bind);
    }
  }

  /** Extending a run by one value extends the recorded binds by that slot's bind, if any. */
  lemma ChangedBindsSnoc<T>(cur: seq<T>, start: nat, nw: seq<T>, i: nat, bind: (nat, T) -> Cmd)
    requires start + |nw| <= |cur| && i < |nw|
    ensures ChangedBinds(cur, start, nw[..i + 1], bind)
         == ChangedBinds(cur, start, nw[..i], bind) + (if cur[start + i] != nw[i] then [bind(start + i, nw[i])] else [])
  {
    assert nw[..i + 1][..i] == nw[..i];
  }

  /** Writing one more value into the spliced array extends the splice by that value. */
  lemma SpliceSnoc<T>(cur: seq<T>, start: nat, nw: seq<T>, i: nat)
    requires start + |nw| <= |cur| && i < |nw|
    ensures Splice(cur, start, nw[..i])[start + i := nw[i]] == Splice(cur, start, nw[..i + 1])
  {
    var a := Splice(cur, start, nw[..i])[start + i := nw[i]];
    var b := Splice(cur, start, nw[..i + 1]);
    assert |a| == |b|;
    forall k | 0 <= k < |a| ensures a[k] == b[k] {
    }
  }

  /**
   * A fixed-size slot array filled from a caller's list: slot `i` takes
   * `values[i]` while the list lasts and `fill` after it; values past
   * `width` are ignored.
   */
  function PadTo<T>(values: seq<T>, width: nat, fill: T): (r: seq<T>)
    ensures |r| == width
    ensures forall i :: 0 <= i < width ==> r[i] == if i < |values| then values[i] else fill
  {
    seq(width, i requires 0 <= i < width => if i < |values| then values[i] else fill)
  }

  /** One bind per written slot, unconditionally: slot `start + i` binds `values[i]`, in slot order. */
  function RangeBinds<T>(start: nat, values: seq<T>, bind: (nat, T) -> Cmd): (r: seq<Cmd>)
    ensures |r| == |values|
    ensures forall i :: 0 <= i < |r| ==> r[i] == bind(start + i, values[i])
  {
    seq(|values|, i requires 0 <= i < |values| => bind(start + i, values[i]))
  }

  /** Extending the written run by one value appends that slot's bind. */
  lemma RangeBindsSnoc<T>(start: nat, values: seq<T>, i: nat, bind: (nat, T) -> Cmd)
    requires i < |values|
    ensures RangeBinds(start, values[..i + 1], bind) == RangeBinds(start, values[..i], bind) + [bind(start + i, values[i])]
  {
    var a := RangeBinds(start, values[..i + 1], bind);
    var b := RangeBinds(start, values[..i], bind) + [bind(start + i, values[i])];
    assert |a| == |b|;
    forall k | 0 <= k < |a| ensures a[k] == b[k] {
    }
  }
}
