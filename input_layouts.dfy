/**
 * `CreateInputLayout`: turning input element descriptors into vertex
 * attributes and per-slot vertex bindings against a vertex shader's input
 * signature.
 */
module InputLayouts {
  import opened Common

  /** `D3D10_APPEND_ALIGNED_ELEMENT`. */
  const AppendAligned: nat := 0xFFFF_FFFF

  /** A semantic name with its index. */
  datatype Semantic = Semantic(name: string, index: nat)

  /**
   * `D3D10_INPUT_ELEMENT_DESC`; `perInstance` says whether `InputSlotClass`
   * is PER_INSTANCE_DATA.
   */
  datatype InputElement = InputElement(
    semantic: Semantic, format: nat, inputSlot: nat, alignedByteOffset: nat, perInstance: bool, stepRate: nat)

  /** A vertex attribute: shader register, binding slot, Vulkan format and byte offset. */
  datatype Attribute = Attribute(location: nat, binding: nat, format: nat, offset: nat)

  /** A vertex binding: slot, instance step rate and input rate. */
  datatype Binding = Binding(binding: nat, fetchRate: nat, perInstance: bool)

  datatype LayoutResult = Layout(attributes: seq<Attribute>, bindings: seq<Binding>) | InvalidArg

  /** Rounds up to a multiple of four. */
  function Align4(x: nat): (r: nat)
    ensures x <= r < x + 4 && r % 4 == 0
  {
    (x + 3) / 4 * 4
  }

  /**
   * The offset an APPEND_ALIGNED attribute on `slot` gets after `attrs`:
   * just past the nearest earlier attribute on the same slot, aligned to
   * four bytes, or 0 if there is none. `size` gives a format's element size.
   */
  function PackedOffset(attrs: seq<Attribute>, slot: nat, size: nat -> nat): nat
    decreases |attrs|
  {
    if attrs == [] then 0
    else
      var prev := attrs[|attrs| - 1];
      if prev.binding == slot then Align4(prev.offset + size(prev.format))
      else PackedOffset(attrs[..|attrs| - 1], slot, size)
  }

  /** An appended attribute starts past the end of every earlier attribute's nearest predecessor on its slot. */
  lemma {:induction false} PackedOffsetClearsPrevious(attrs: seq<Attribute>, slot: nat, size: nat -> nat)
    requires exists k :: 0 <= k < |attrs| && attrs[k].binding == slot
    ensures exists k :: (0 <= k < |attrs| && attrs[k].binding == slot
      && PackedOffset(attrs, slot, size) >= attrs[k].offset + size(attrs[k].format)
      && forall m :: k < m < |attrs| ==> attrs[m].binding != slot)
  {
    var last := attrs[|attrs| - 1];
    if last.binding == slot {
      assert PackedOffset(attrs, slot, size) >= last.offset + size(last.format);
    } else {
      var front := attrs[..|attrs| - 1];
      var w :| 0 <= w < |attrs| && attrs[w].binding == slot;
      assert front[w] == attrs[w];
      PackedOffsetClearsPrevious(front, slot, size);
      var k :| 0 <= k < |front| && front[k].binding == slot
        && PackedOffset(front, slot, size) >= front[k].offset + size(front[k].format)
        && forall m :: k < m < |front| ==> front[m].binding != slot;
      assert attrs[k] == front[k];
      assert forall m :: k < m < |attrs| ==> attrs[m].binding != slot by {
        forall m | k < m < |attrs| ensures attrs[m].binding != slot {
          if m < |front| {
            assert attrs[m] == front[m];
          }
        }
      }
    }
  }

  predicate Kept(e: InputElement, signature: map<Semantic, nat>) {
    e.semantic in signature
  }

  /** The attribute an element that the shader reads becomes, given the attributes before it. */
  function AttributeFor(e: InputElement, signature: map<Semantic, nat>, before: seq<Attribute>, vkFormat: nat -> nat, size: nat -> nat): Attribute
    requires Kept(e, signature)
  {
    Attribute(signature[e.semantic], e.inputSlot, vkFormat(e.format),
              if e.alignedByteOffset == AppendAligned then PackedOffset(before, e.inputSlot, size) else e.alignedByteOffset)
  }

  /** The attributes of `elements` in order; elements the signature lacks produce none. */
  function Attributes(elements: seq<InputElement>, signature: map<Semantic, nat>, vkFormat: nat -> nat, size: nat -> nat): (r: seq<Attribute>)
    decreases |elements|
  {
    if elements == [] then []
    else
      var before := Attributes(elements[..|elements| - 1], signature, vkFormat, size);
      var e := elements[|elements| - 1];
      if Kept(e, signature) then before + [AttributeFor(e, signature, before, vkFormat, size)] else before
  }

  /** The kept elements of `elements`, in order. */
  function KeptElements(elements: seq<InputElement>, signature: map<Semantic, nat>): seq<InputElement>
    decreases |elements|
  {
    if elements == [] then []
    else
      var before := KeptElements(elements[..|elements| - 1], signature);
      if Kept(elements[|elements| - 1], signature) then before + [elements[|elements| - 1]] else before
  }

  /**
   * Attribute `k` comes from kept element `k`: its register is that
   * element's signature entry, its binding the element's slot.
   */
  lemma {:induction false} AttributesMatchKeptElements(elements: seq<InputElement>, signature: map<Semantic, nat>, vkFormat: nat -> nat, size: nat -> nat)
    ensures var attrs := Attributes(elements, signature, vkFormat, size);
      var kept := KeptElements(elements, signature);
      |attrs| == |kept|
      && forall k :: 0 <= k < |kept| ==>
           Kept(kept[k], signature) && attrs[k].location == signature[kept[k].semantic]
           && attrs[k].binding == kept[k].inputSlot && attrs[k].format == vkFormat(kept[k].format)
    decreases |elements|
  {
    if elements != [] {
      AttributesMatchKeptElements(elements[..|elements| - 1], signature, vkFormat, size);
    }
  }

  function BindingFor(e: InputElement): Binding {
    Binding(e.inputSlot, e.stepRate, e.perInstance)
  }

  predicate SlotBound(bindings: seq<Binding>, slot: nat) {
    exists m :: 0 <= m < |bindings| && bindings[m].binding == slot
  }

  /** The bindings in order of first use: the first kept element on each slot defines that slot's binding. */
  function BindingsOf(elements: seq<InputElement>, signature: map<Semantic, nat>): seq<Binding>
    decreases |elements|
  {
    if elements == [] then []
    else
      var before := BindingsOf(elements[..|elements| - 1], signature);
      var e := elements[|elements| - 1];
      if Kept(e, signature) && !SlotBound(before, e.inputSlot) then before + [BindingFor(e)] else before
  }

  /** Two kept elements share a slot but disagree on the input rate. */
  predicate HasConflict(elements: seq<InputElement>, signature: map<Semantic, nat>) {
    exists i, j :: 0 <= i < j < |elements| && Kept(elements[i], signature) && Kept(elements[j], signature)
      && elements[i].inputSlot == elements[j].inputSlot && elements[i].perInstance != elements[j].perInstance
  }

  predicate DistinctSlots(bindings: seq<Binding>) {
    forall m, n :: 0 <= m < n < |bindings| ==> bindings[m].binding != bindings[n].binding
  }

  /** Some kept element has `b`'s slot and input rate. */
  predicate Accounted(elements: seq<InputElement>, signature: map<Semantic, nat>, b: Binding) {
    exists k :: 0 <= k < |elements| && Kept(elements[k], signature)
      && elements[k].inputSlot == b.binding && elements[k].perInstance == b.perInstance
  }

  /** Every binding stands for a kept element with its slot and rate; every kept element's slot is bound. */
  predicate BindingsAccountFor(elements: seq<InputElement>, signature: map<Semantic, nat>, bindings: seq<Binding>) {
    (forall m :: 0 <= m < |bindings| ==> Accounted(elements, signature, bindings[m]))
    && (forall k :: 0 <= k < |elements| && Kept(elements[k], signature) ==> SlotBound(bindings, elements[k].inputSlot))
  }

  /**
   * One binding per slot, and, without a rate conflict, each slot's binding
   * carries the rate of every kept element on that slot.
   */
  lemma {:induction false} BindingsOfFacts(elements: seq<InputElement>, signature: map<Semantic, nat>)
    ensures DistinctSlots(BindingsOf(elements, signature))
    ensures BindingsAccountFor(elements, signature, BindingsOf(elements, signature))
    decreases |elements|
  {
    if elements != [] {
      var front := elements[..|elements| - 1];
      var e := elements[|elements| - 1];
      var before := BindingsOf(front, signature);
      BindingsOfFacts(front, signature);
      var bs := BindingsOf(elements, signature);
      forall m, n | 0 <= m < n < |bs| ensures bs[m].binding != bs[n].binding {
        if n == |before| {
          assert bs[m] == before[m];
        }
      }
      forall m | 0 <= m < |bs| ensures Accounted(elements, signature, bs[m]) {
        if m < |before| {
          assert Accounted(front, signature, before[m]);
          var k :| 0 <= k < |front| && Kept(front[k], signature)
            && front[k].inputSlot == before[m].binding && front[k].perInstance == before[m].perInstance;
          assert elements[k] == front[k] && bs[m] == before[m];
        } else {
          assert Kept(e, signature) && bs[m] == BindingFor(e);
          assert elements[|elements| - 1] == e;
        }
      }
      forall k | 0 <= k < |elements| && Kept(elements[k], signature)
        ensures SlotBound(bs, elements[k].inputSlot)
      {
        if k < |front| {
          assert elements[k] == front[k];
          var m :| 0 <= m < |before| && before[m].binding == front[k].inputSlot;
          assert bs[m] == before[m];
        } else if !SlotBound(before, e.inputSlot) {
          assert bs[|bs| - 1].binding == e.inputSlot;
        }
      }
    }
  }

  /** The offset of an APPEND_ALIGNED attribute, found by walking back over the attributes built so far. */
  method FindPackedOffset(attrs: seq<Attribute>, slot: nat, size: nat -> nat) returns (offset: nat)
    ensures offset == PackedOffset(attrs, slot, size)
  {
    offset := 0;
    var j := |attrs|;
    assert attrs[..j] == attrs;
    var found := false;
    while j > 0 && !found
      invariant 0 <= j <= |attrs|
      invariant !found ==> offset == 0 && PackedOffset(attrs, slot, size) == PackedOffset(attrs[..j], slot, size)
      invariant found ==> offset == PackedOffset(attrs, slot, size)
      decreases j, if found then 0 else 1
    {
      var prev := attrs[j - 1];
      assert attrs[..j][..j - 1] == attrs[..j - 1];
      if prev.binding == slot {
        offset := Align4(prev.offset + size(prev.format));
        found := true;
      } else {
        j := j - 1;
      }
    }
    if !found {
      assert attrs[..0] == [];
    }
  }

  /**
   * Looks `b`'s slot up among `bindings`: whether it is already defined,
   * and whether a binding for it has a different input rate.
   */
  method CheckBinding(bindings: seq<Binding>, b: Binding) returns (defined: bool, conflict: bool)
    ensures defined <==> SlotBound(bindings, b.binding)
    ensures conflict <==> exists m :: 0 <= m < |bindings| && bindings[m].binding == b.binding && bindings[m].perInstance != b.perInstance
  {
    defined := false;
    conflict := false;
    var m := 0;
    while m < |bindings| && !conflict
      invariant 0 <= m <= |bindings|
      invariant defined <==> exists n :: 0 <= n < m && bindings[n].binding == b.binding
      invariant conflict <==> exists n :: 0 <= n < m && bindings[n].binding == b.binding && bindings[n].perInstance != b.perInstance
    {
      if bindings[m].binding == b.binding {
        defined := true;
        if bindings[m].perInstance != b.perInstance {
          conflict := true;
        }
      }
      m := m + 1;
    }
    if conflict {
      assert SlotBound(bindings, b.binding);
    }
  }

  /** A kept element of `elements` shares `e`'s slot but not its input rate. */
  predicate ClashesWithEarlier(elements: seq<InputElement>, signature: map<Semantic, nat>, e: InputElement) {
    exists i :: 0 <= i < |elements| && Kept(elements[i], signature)
      && elements[i].inputSlot == e.inputSlot && elements[i].perInstance != e.perInstance
  }

  /** A conflict after appending `e` is an earlier conflict or one involving `e`. */
  lemma ConflictSplit(elements: seq<InputElement>, signature: map<Semantic, nat>, e: InputElement)
    ensures HasConflict(elements + [e], signature) <==>
      HasConflict(elements, signature) || (Kept(e, signature) && ClashesWithEarlier(elements, signature, e))
  {
    var es := elements + [e];
    forall i, j | 0 <= i < j < |es| && Kept(es[i], signature) && Kept(es[j], signature)
        && es[i].inputSlot == es[j].inputSlot && es[i].perInstance != es[j].perInstance
      ensures HasConflict(elements, signature) || (Kept(e, signature) && ClashesWithEarlier(elements, signature, e))
    {
      assert es[i] == elements[i];
      if j < |elements| {
        assert es[j] == elements[j];
      } else {
        assert es[j] == e;
      }
    }
    if HasConflict(elements, signature) {
      var i, j :| 0 <= i < j < |elements| && Kept(elements[i], signature) && Kept(elements[j], signature)
        && elements[i].inputSlot == elements[j].inputSlot && elements[i].perInstance != elements[j].perInstance;
      assert es[i] == elements[i] && es[j] == elements[j];
    }
    if Kept(e, signature) && ClashesWithEarlier(elements, signature, e) {
      var i :| 0 <= i < |elements| && Kept(elements[i], signature)
        && elements[i].inputSlot == e.inputSlot && elements[i].perInstance != e.perInstance;
      assert es[i] == elements[i] && es[|elements|] == e;
    }
  }

  /** Without a conflict, kept elements on one slot share their input rate. */
  lemma SameSlotSameRate(elements: seq<InputElement>, signature: map<Semantic, nat>, a: nat, b: nat)
    requires !HasConflict(elements, signature)
    requires a < |elements| && b < |elements| && Kept(elements[a], signature) && Kept(elements[b], signature)
    requires elements[a].inputSlot == elements[b].inputSlot
    ensures elements[a].perInstance == elements[b].perInstance
  {
    if a < b {
      assert !(Kept(elements[a], signature) && Kept(elements[b], signature)
        && elements[a].inputSlot == elements[b].inputSlot && elements[a].perInstance != elements[b].perInstance);
    } else if b < a {
      assert !(Kept(elements[b], signature) && Kept(elements[a], signature)
        && elements[b].inputSlot == elements[a].inputSlot && elements[b].perInstance != elements[a].perInstance);
    }
  }

  /** A new element clashes with an earlier one exactly when its slot's binding has the other rate. */
  lemma ConflictStep(elements: seq<InputElement>, signature: map<Semantic, nat>, bindings: seq<Binding>, e: InputElement)
    requires Kept(e, signature) && !HasConflict(elements, signature)
    requires BindingsAccountFor(elements, signature, bindings)
    ensures HasConflict(elements + [e], signature) <==>
      exists m :: 0 <= m < |bindings| && bindings[m].binding == e.inputSlot && bindings[m].perInstance != e.perInstance
  {
    ConflictSplit(elements, signature, e);
    if ClashesWithEarlier(elements, signature, e) {
      var i :| 0 <= i < |elements| && Kept(elements[i], signature)
        && elements[i].inputSlot == e.inputSlot && elements[i].perInstance != e.perInstance;
      var m :| 0 <= m < |bindings| && bindings[m].binding == elements[i].inputSlot;
      var k :| 0 <= k < |elements| && Kept(elements[k], signature)
        && elements[k].inputSlot == bindings[m].binding && elements[k].perInstance == bindings[m].perInstance;
      SameSlotSameRate(elements, signature, i, k);
    }
    if exists m :: 0 <= m < |bindings| && bindings[m].binding == e.inputSlot && bindings[m].perInstance != e.perInstance {
      var m :| 0 <= m < |bindings| && bindings[m].binding == e.inputSlot && bindings[m].perInstance != e.perInstance;
      var k :| 0 <= k < |elements| && Kept(elements[k], signature)
        && elements[k].inputSlot == bindings[m].binding && elements[k].perInstance == bindings[m].perInstance;
    }
  }

  /** Extending the prefix by one element keeps the prefix a prefix. */
  lemma PrefixStep<T>(s: seq<T>, i: nat)
    requires i < |s|
    ensures s[..i + 1] == s[..i] + [s[i]]
    ensures s[..i + 1][..i] == s[..i]
  {
  }

  /** A conflict in a prefix is a conflict of the whole. */
  lemma ConflictExtends(elements: seq<InputElement>, signature: map<Semantic, nat>, n: nat)
    requires n <= |elements| && HasConflict(elements[..n], signature)
    ensures HasConflict(elements, signature)
  {
    var pre := elements[..n];
    var i, j :| 0 <= i < j < |pre| && Kept(pre[i], signature) && Kept(pre[j], signature)
      && pre[i].inputSlot == pre[j].inputSlot && pre[i].perInstance != pre[j].perInstance;
    assert pre[i] == elements[i] && pre[j] == elements[j];
  }

  predicate SortedBySlot(bs: seq<Binding>) {
    forall m, n :: 0 <= m < n < |bs| ==> bs[m].binding <= bs[n].binding
  }

  /** `b` inserted before the first binding with a larger slot. */
  function InsertBinding(bs: seq<Binding>, b: Binding): (r: seq<Binding>)
    ensures multiset(r) == multiset(bs) + multiset{b}
    decreases |bs|
  {
    if bs == [] then [b]
    else if b.binding <= bs[0].binding then [b] + bs
    else
      assert bs == [bs[0]] + bs[1..];
      [bs[0]] + InsertBinding(bs[1..], b)
  }

  /** Inserting a binding whose slot is at least `lo` keeps every slot at least `lo`. */
  lemma InsertBindingAbove(bs: seq<Binding>, b: Binding, lo: nat)
    requires lo <= b.binding && forall x | x in bs :: lo <= x.binding
    ensures forall x | x in InsertBinding(bs, b) :: lo <= x.binding
  {
    forall x | x in InsertBinding(bs, b) ensures lo <= x.binding {
      assert x in multiset(InsertBinding(bs, b));
    }
  }

  /** Inserting into a sorted sequence keeps it sorted. */
  lemma {:induction false} InsertBindingSorted(bs: seq<Binding>, b: Binding)
    requires SortedBySlot(bs)
    ensures SortedBySlot(InsertBinding(bs, b))
    decreases |bs|
  {
    if bs != [] && b.binding > bs[0].binding {
      var tail := bs[1..];
      InsertBindingSorted(tail, b);
      InsertBindingAbove(tail, b, bs[0].binding);
      var r := InsertBinding(bs, b);
      assert r == [bs[0]] + InsertBinding(tail, b);
      forall m, n | 0 <= m < n < |r| ensures r[m].binding <= r[n].binding {
        if m == 0 {
          assert r[n] in InsertBinding(tail, b);
        }
      }
    }
  }

  /** The bindings ordered by slot, as the final sort leaves them. */
  function SortBindings(bs: seq<Binding>): (r: seq<Binding>)
    ensures SortedBySlot(r) && multiset(r) == multiset(bs)
    decreases |bs|
  {
    if bs == [] then []
    else
      assert bs == bs[..|bs| - 1] + [bs[|bs| - 1]];
      var front := SortBindings(bs[..|bs| - 1]);
      InsertBindingSorted(front, bs[|bs| - 1]);
      InsertBinding(front, bs[|bs| - 1])
  }

  /** Sorting bindings with distinct slots leaves them strictly ascending. */
  lemma SortedDistinctAscending(bs: seq<Binding>)
    requires DistinctSlots(bs)
    ensures var r := SortBindings(bs);
      forall m, n :: 0 <= m < n < |r| ==> r[m].binding < r[n].binding
  {
    var r := SortBindings(bs);
    forall m, n | 0 <= m < n < |r| ensures r[m].binding < r[n].binding {
      assert r[m] in multiset(r) && r[n] in multiset(r);
      var p :| 0 <= p < |bs| && bs[p] == r[m];
      var q :| 0 <= q < |bs| && bs[q] == r[n];
      if p == q {
        MultisetTwoPositions(r, m, n);
        OnlyOnce(bs, p);
        assert false;
      }
    }
  }

  /** An element at two positions occurs at least twice. */
  lemma MultisetTwoPositions<T>(s: seq<T>, m: nat, n: nat)
    requires m < n < |s| && s[m] == s[n]
    ensures multiset(s)[s[m]] >= 2
  {
    assert s == s[..n] + [s[n]] + s[n + 1..];
    assert s[..n] == s[..m] + [s[m]] + s[m + 1..n];
  }

  /** With distinct slots, each binding occurs once. */
  lemma OnlyOnce(bs: seq<Binding>, p: nat)
    requires DistinctSlots(bs) && p < |bs|
    ensures multiset(bs)[bs[p]] == 1
  {
    assert bs == bs[..p] + [bs[p]] + bs[p + 1..];
    forall i | 0 <= i < p ensures bs[..p][i] != bs[p] {
      assert bs[i].binding != bs[p].binding;
    }
    var tail := bs[p + 1..];
    forall i | 0 <= i < |tail| ensures tail[i] != bs[p] {
      assert tail[i] == bs[p + 1 + i];
    }
    assert bs[p] !in bs[..p] && bs[p] !in tail;
  }

  /**
   * `CreateInputLayout` given the shader's input signature (semantic to
   * register) and the format helpers: elements whose semantic the shader
   * lacks are skipped; each remaining element becomes one attribute, at
   * its explicit offset or packed after the previous attribute on its
   * slot; the first element on a slot defines the slot's binding, and an
   * element disagreeing with it on the input rate fails the call; the
   * bindings end up ordered by slot.
   */
  method CreateInputLayout(elements: seq<InputElement>, signature: map<Semantic, nat>, vkFormat: nat -> nat, size: nat -> nat)
    returns (r: LayoutResult)
    ensures r.InvalidArg? <==> HasConflict(elements, signature)
    ensures r.Layout? ==> r.attributes == Attributes(elements, signature, vkFormat, size)
    ensures r.Layout? ==> r.bindings == SortBindings(BindingsOf(elements, signature))
  {
    var attributes: seq<Attribute> := [];
    var bindings: seq<Binding> := [];
    var i := 0;
    while i < |elements|
      invariant 0 <= i <= |elements|
      invariant attributes == Attributes(elements[..i], signature, vkFormat, size)
      invariant bindings == BindingsOf(elements[..i], signature)
      invariant !HasConflict(elements[..i], signature)
    {
      var e := elements[i];
      PrefixStep(elements, i);
      if e.semantic !in signature {
        ConflictSplit(elements[..i], signature, e);
        i := i + 1;
        continue;
      }
      var offset := e.alignedByteOffset;
      if offset == AppendAligned {
        offset := FindPackedOffset(attributes, e.inputSlot, size);
      }
      attributes := attributes + [Attribute(signature[e.semantic], e.inputSlot, vkFormat(e.format), offset)];
      var binding := BindingFor(e);
      var defined, conflict := CheckBinding(bindings, binding);
      BindingsOfFacts(elements[..i], signature);
      ConflictStep(elements[..i], signature, bindings, e);
      if conflict {
        ConflictExtends(elements, signature, i + 1);
        return InvalidArg;
      }
      if !defined {
        bindings := bindings + [binding];
      }
      i := i + 1;
    }
    assert elements[..i] == elements;
    r := Layout(attributes, SortBindings(bindings));
  }

  /** The resulting bindings hold one entry per used slot, in strictly ascending slot order. */
  lemma LayoutBindingsPerSlot(elements: seq<InputElement>, signature: map<Semantic, nat>)
    ensures var r := SortBindings(BindingsOf(elements, signature));
      (forall m, n :: 0 <= m < n < |r| ==> r[m].binding < r[n].binding)
      && (forall k :: 0 <= k < |elements| && Kept(elements[k], signature) ==> SlotBound(r, elements[k].inputSlot))
  {
    var bs := BindingsOf(elements, signature);
    BindingsOfFacts(elements, signature);
    SortedDistinctAscending(bs);
    forall k | 0 <= k < |elements| && Kept(elements[k], signature)
      ensures SlotBound(SortBindings(bs), elements[k].inputSlot)
    {
      SortKeepsSlot(bs, elements[k].inputSlot);
    }
  }

  lemma SortKeepsSlot(bs: seq<Binding>, slot: nat)
    requires SlotBound(bs, slot)
    ensures SlotBound(SortBindings(bs), slot)
  {
    var r := SortBindings(bs);
    var p :| 0 <= p < |bs| && bs[p].binding == slot;
    assert bs[p] in multiset(bs);
    assert bs[p] in multiset(r);
    var m :| 0 <= m < |r| && r[m] == bs[p];
  }

  // ---- The APPEND_ALIGNED search as written --------------------------------

  /**
   * The as-written search: for element `i` it walks
   * `attributes.at(i - j)` for `j = 1 .. i`, indexing the attributes built
   * so far by element position. `None` stands for the out-of-range
   * exception `at` throws once that position is past their end.
   */
  function SearchAsWritten(attrs: seq<Attribute>, i: nat, j: nat, slot: nat, size: nat -> nat): (r: Option<nat>)
    requires 1 <= j
    decreases i + 1 - j
  {
    if j > i then Some(0)
    else if i - j >= |attrs| then None
    else if attrs[i - j].binding == slot then Some(Align4(attrs[i - j].offset + size(attrs[i - j].format)))
    else SearchAsWritten(attrs, i, j + 1, slot, size)
  }

  /** Without skipped elements the positions line up and the search agrees with the intended offset. */
  lemma SearchAsWrittenAgreesWithoutSkips(attrs: seq<Attribute>, slot: nat, size: nat -> nat)
    ensures SearchAsWritten(attrs, |attrs|, 1, slot, size) == Some(PackedOffset(attrs, slot, size))
  {
    SearchSuffix(attrs, |attrs|, slot, size);
    assert attrs[..|attrs|] == attrs;
  }

  lemma {:induction false} SearchSuffix(attrs: seq<Attribute>, j: nat, slot: nat, size: nat -> nat)
    requires j <= |attrs|
    ensures SearchAsWritten(attrs, |attrs|, |attrs| - j + 1, slot, size) == Some(PackedOffset(attrs[..j], slot, size))
    decreases j
  {
    if j == 0 {
      assert attrs[..0] == [];
    } else {
      assert attrs[..j][..j - 1] == attrs[..j - 1];
      assert attrs[..j][j - 1] == attrs[j - 1];
      if attrs[j - 1].binding != slot {
        SearchSuffix(attrs, j - 1, slot, size);
      }
    }
  }

  /** After a skipped element (fewer attributes than elements before `i`) the first probe is out of range. */
  lemma SearchAsWrittenThrowsAfterSkip(attrs: seq<Attribute>, i: nat, slot: nat, size: nat -> nat)
    requires |attrs| < i
    ensures SearchAsWritten(attrs, i, 1, slot, size) == None
  {
  }

  /**
   * A concrete layout: an element the shader does not read, then an
   * APPEND_ALIGNED element it does. The source throws where the intended
   * packing gives offset 0.
   */
  lemma AppendAlignedAfterSkippedElementThrows(size: nat -> nat, vkFormat: nat -> nat)
    ensures var signature := map[Semantic("POSITION", 0) := 0];
      var elements := [InputElement(Semantic("COLOR", 0), 0, 0, 0, false, 0),
                       InputElement(Semantic("POSITION", 0), 0, 0, AppendAligned, false, 0)];
      var before := Attributes(elements[..1], signature, vkFormat, size);
      before == [] && SearchAsWritten(before, 1, 1, 0, size).None?
      && Attributes(elements, signature, vkFormat, size) == [Attribute(0, 0, vkFormat(0), 0)]
  {
    var signature := map[Semantic("POSITION", 0) := 0];
    var elements := [InputElement(Semantic("COLOR", 0), 0, 0, 0, false, 0),
                     InputElement(Semantic("POSITION", 0), 0, 0, AppendAligned, false, 0)];
    assert Semantic("COLOR", 0) != Semantic("POSITION", 0) by {
      assert "COLOR"[0] != "POSITION"[0];
    }
    assert elements[..1][..0] == [];
    assert elements[..1] == [elements[0]];
    assert elements[..|elements| - 1] == elements[..1];
  }
}
