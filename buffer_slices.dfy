/**
 * The buffer slices the D3D10 front end hands to the backend
 * (`D3D10Buffer::GetBufferSlice` and `GetSize`).
 */
module BufferSlices {
  import opened Common

  /**
   * A `D3D10Buffer` as the context sees it: its identity, its `ByteWidth` (a
   * UINT, so below 2^32) and whether its backing memory is host-visible.
   * `NoBuffer` is `nullptr`.
   */
  datatype BufferRef = NoBuffer | BufferRef(id: nat, size: nat, hostVisible: bool)

  /** A `DxvkBufferSlice`; `EmptySlice` is the default-constructed slice with no buffer. */
  datatype Slice = EmptySlice | Slice(buffer: nat, offset: nat, length: nat)

  /** The byte range `[offset, offset + length)` that a slice covers. */
  predicate Covers(s: Slice, b: BufferRef, lo: nat, hi: nat) {
    b.BufferRef? && s.Slice? && s.buffer == b.id && s.offset == lo && s.offset + s.length == hi
  }

  /** `GetBufferSlice()`: the whole buffer. */
  function WholeSlice(b: BufferRef): (r: Slice)
    requires b.BufferRef?
    ensures Covers(r, b, 0, b.size)
  {
    Slice(b.id, 0, b.size)
  }

  /**
   * `GetBufferSlice(offset)`: from `offset` to the end of the buffer. The
   * length is an unsigned 64-bit difference, so an offset past the end
   * yields a wrapped, huge length.
   */
  function SliceFrom(b: BufferRef, offset: nat): (r: Slice)
    requires b.BufferRef?
    ensures offset <= b.size < TwoTo64 ==> Covers(r, b, offset, b.size)
    ensures b.size < offset < TwoTo64 ==> r.Slice? && r.length == TwoTo64 - (offset - b.size)
  {
    Slice(b.id, offset, U64(b.size - offset))
  }

  /** `GetBufferSlice(offset, length)`: exactly `[offset, offset + length)`. */
  function SubSlice(b: BufferRef, offset: nat, length: nat): (r: Slice)
    requires b.BufferRef?
    ensures Covers(r, b, offset, offset + length)
  {
    Slice(b.id, offset, length)
  }

  /** `GetSize()` for a non-null buffer; the null buffer has no size. */
  function SizeOf(b: BufferRef): (r: nat)
    requires b.BufferRef?
    ensures WholeSlice(b).length == r
  {
    b.size
  }

  /** The one-offset overload is the two-argument one with the remaining length; offset 0 gives the whole buffer. */
  lemma SlicesAgree(b: BufferRef, offset: nat)
    requires b.BufferRef? && offset <= b.size < TwoTo64
    ensures SliceFrom(b, offset) == SubSlice(b, offset, b.size - offset)
    ensures SliceFrom(b, 0) == WholeSlice(b)
  {
  }
}
