/** The two descriptor records a mesh is populated with: `MeshIndexData`
    (index type and index bytes) and `MeshAttributeData` (name, type and a
    strided view of one attribute). Neither owns memory. */
module MeshDescriptors {
  import Magnum
  import opened Containers
  import opened MeshTypes

  /** `MeshIndexData`. Its runtime-typed constructor, which takes the type
      tag and the byte view as they are, is the datatype constructor. */
  datatype MeshIndexData = MeshIndexData(indexType: MeshIndexType, data: ByteView)

  /** The typed constructors `MeshIndexData(ArrayView<T>)` for the three
      index integers, as intended: the tag is the one of `T`, and the byte
      view covers every byte of the given elements, so a mesh built from it
      sees exactly the given indices. */
  function IndexDataFromView(v: ArrayView): (r: MeshIndexData)
    requires v.element.IsIndexElement()
    ensures r.indexType == MeshIndexTypeFor(v.element)
    ensures r.data.memory == v.memory && r.data.offset == v.offset
    ensures r.data.size == v.ByteSize()
    ensures v.Valid() ==> r.data.Valid()
    ensures r.data.size % r.indexType.Width() == 0
    ensures r.data.size / r.indexType.Width() == v.size
    ensures ArrayCast(r.data, v.element) == v
  {
    Magnum.SizeDivCancel(v.element, v.size);
    MeshIndexData(MeshIndexTypeFor(v.element), ArrayCast(v, Magnum.Char))
  }

  /** The typed constructors as the source writes them: the `ArrayView<T>`
      is reinterpreted as an `ArrayView<char>` object, which keeps its
      element count as the byte size. */
  function IndexDataFromViewAsWritten(v: ArrayView): (r: MeshIndexData)
    requires v.element.IsIndexElement()
    ensures r.indexType == MeshIndexTypeFor(v.element)
    ensures r.data.memory == v.memory && r.data.offset == v.offset
    ensures r.data.size == v.size
  {
    MeshIndexData(MeshIndexTypeFor(v.element), ArrayView(v.memory, v.offset, v.size, Magnum.Char))
  }

  /** For 16- and 32-bit indices the descriptor written by the source covers
      fewer bytes than the view it was given, and so describes fewer
      indices. */
  lemma AsWrittenDropsWideIndices(v: ArrayView)
    requires v.element == Magnum.UnsignedShort || v.element == Magnum.UnsignedInt
    requires v.size > 0
    ensures IndexDataFromViewAsWritten(v).data.size < IndexDataFromView(v).data.size
    ensures IndexDataFromViewAsWritten(v).data.size / IndexDataFromViewAsWritten(v).indexType.Width() < v.size
  {
  }

  /** Three 16-bit indices: the source's descriptor has 3 bytes, which is not
      a whole number of indices and gives an index count of 1; the intended
      one has 6 bytes and 3 indices. */
  lemma AsWrittenThreeShorts(memory: array<Magnum.byte>)
    requires memory.Length >= 6
    ensures var v := ArrayView(memory, 0, 3, Magnum.UnsignedShort);
            && v.Valid()
            && IndexDataFromViewAsWritten(v).data.size == 3
            && IndexDataFromViewAsWritten(v).data.size % 2 == 1
            && IndexDataFromViewAsWritten(v).data.size / 2 == 1
            && IndexDataFromView(v).data.size == 6
            && IndexDataFromView(v).data.size / 2 == 3
  {
  }

  /** For 8-bit indices the source's reinterpretation is right. */
  lemma AsWrittenKeepsByteIndices(v: ArrayView)
    requires v.element == Magnum.UnsignedByte
    ensures IndexDataFromViewAsWritten(v) == IndexDataFromView(v)
  {
  }

  /** `MeshAttributeData`: the attribute's name, its type tag and a strided
      byte view of its elements. */
  datatype MeshAttributeData = MeshAttributeData(name: MeshAttributeName, attributeType: MeshAttributeType, data: StridedByteView)

  /** The default constructor value-initialises every field: the first
      name, the first type and a null view with no elements, offset 0 and
      stride 0. */
  function DefaultAttributeData(): (r: MeshAttributeData)
    ensures r.data == NullStridedView
    ensures r.data.memory == null && r.data.offset == 0 && r.data.size == 0 && r.data.stride == 0
    ensures r.name == Positions2D && r.attributeType == Vector2
  {
    MeshAttributeData(Positions2D, Vector2, NullStridedView)
  }

  /** The constructor from a name, a type and a `StridedArrayView<T>`. It
      keeps the name and the type as given (without comparing the type
      with `T`) and reinterprets the view as a byte view with the same
      memory, offset, element count and stride, so that casting it back to
      `T` recovers the given view. */
  function AttributeDataFromView(name: MeshAttributeName, attributeType: MeshAttributeType, v: StridedArrayView): (r: MeshAttributeData)
    ensures r.name == name && r.attributeType == attributeType
    ensures StridedArrayCast(r.data, v.element) == v
  {
    MeshAttributeData(name, attributeType, StridedArrayCast(v, Magnum.Char))
  }
}
