/** The non-owning views the mesh container hands out and stores: a
    contiguous `ArrayView<T>` and a `StridedArrayView<T>`. A view is a record
    of the memory block it points into (a Dafny array; `null` is the null
    pointer), a byte offset into that block, an element count and the static
    element type. Only the geometry of the views and `arrayCast` matter to
    the mesh container. */
module Containers {
  import opened Magnum

  /** `ArrayView<T>`: `size` consecutive elements of type `element`, the
      first one `offset` bytes into `memory`. */
  datatype ArrayView = ArrayView(memory: array?<byte>, offset: nat, size: nat, element: ElementType)
  {
    function ByteSize(): nat
    {
      size * element.Size()
    }

    /** The view lies inside its memory block; the null view is empty. */
    predicate Valid()
    {
      if memory == null then offset == 0 && size == 0
      else offset + ByteSize() <= memory.Length
    }
  }

  /** `ArrayView<char>`: type-erased memory. */
  type ByteView = v: ArrayView | v.element == Char witness ArrayView(null, 0, 0, Char)

  /** A view constructed from `nullptr`. */
  const NullView: ByteView := ArrayView(null, 0, 0, Char)

  /** `StridedArrayView<T>`: `size` elements of type `element`, the first
      one `offset` bytes into `memory` and each next one `stride` bytes
      further (the stride may be zero or negative). */
  datatype StridedArrayView = StridedArrayView(memory: array?<byte>, offset: nat, size: nat, stride: int, element: ElementType)

  /** `StridedArrayView<char>`. */
  type StridedByteView = v: StridedArrayView | v.element == Char witness StridedArrayView(null, 0, 0, 0, Char)

  /** A default-constructed strided view. */
  const NullStridedView: StridedByteView := StridedArrayView(null, 0, 0, 0, Char)

  /** `arrayCast<T>()` of a contiguous view: the same bytes of the same
      memory, seen as elements of type `t`. The byte size must be a whole
      number of `t` elements. */
  function ArrayCast(v: ArrayView, t: ElementType): (r: ArrayView)
    requires v.ByteSize() % t.Size() == 0
    ensures r.memory == v.memory && r.offset == v.offset && r.element == t
    ensures r.ByteSize() == v.ByteSize()
    ensures v.Valid() ==> r.Valid()
  {
    ArrayView(v.memory, v.offset, v.ByteSize() / t.Size(), t)
  }

  /** Casting a view and casting the result back to the original element
      type gives the original view. */
  lemma ArrayCastRoundTrip(v: ArrayView, t: ElementType)
    requires v.ByteSize() % t.Size() == 0
    ensures ArrayCast(v, t).ByteSize() % v.element.Size() == 0
    ensures ArrayCast(ArrayCast(v, t), v.element) == v
  {
    SizeDivCancel(v.element, v.size);
  }

  /** `arrayCast<T>()` of a strided view: the same elements of the same
      memory (same count, same stride), now typed as `t`. */
  function StridedArrayCast(v: StridedArrayView, t: ElementType): (r: StridedArrayView)
    ensures r.memory == v.memory && r.offset == v.offset && r.element == t
    ensures r.size == v.size && r.stride == v.stride
  {
    v.(element := t)
  }

  /** The bytes a valid view covers. */
  function Bytes(v: ArrayView): (s: seq<byte>)
    reads v.memory
    requires v.Valid()
    ensures |s| == v.ByteSize()
  {
    if v.memory == null then [] else v.memory[v.offset .. v.offset + v.ByteSize()]
  }

  /** The integer value of element `i` of a view over integers. */
  function Element(v: ArrayView, i: nat): (x: nat)
    reads v.memory
    requires v.Valid() && i < v.size
    ensures x < Pow256(v.element.Size())
  {
    MulMonotone(i + 1, v.size, v.element.Size());
    ReadLittleEndian(Bytes(v), v.element.Size(), i)
  }
}
