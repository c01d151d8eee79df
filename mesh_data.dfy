/** `MeshData`: a mesh's index and vertex buffers, which it may own, the
    descriptor of its indices, the ordered descriptors of its attributes and
    an opaque importer-state pointer; with the counts, lookups, typed views,
    index conversion and the two release operations. */
module Mesh {
  import opened Magnum
  import opened Containers
  import opened MeshTypes
  import opened MeshDescriptors
  import opened AttributeLookup
  import IndexConversion

  /** The address of the importer-specific state: stored and handed back,
      never dereferenced. */
  type ImporterState = nat

  /** What the constructor expects of its arguments; it checks none of it.
      The source documents three expectations:
      - the index view is a whole number of indices of its type;
      - an owned index buffer is the memory the index view points into, and
        an owned vertex buffer the memory every attribute view points into;
      - every attribute has the same number of elements (the vertex count).
      Two more are this model's own requirements:
      - the index view lies inside its memory;
      - every slot can be addressed by a 32-bit slot id. */
  ghost predicate Consistent(indexData: array?<byte>, vertexData: array?<byte>, indices: MeshIndexData, attributes: seq<MeshAttributeData>)
  {
    && indices.data.Valid()
    && indices.data.size % indices.indexType.Width() == 0
    && (indexData != null ==> indices.data.memory == indexData)
    && (vertexData != null ==> forall i :: 0 <= i < |attributes| ==> attributes[i].data.memory == vertexData)
    && (forall i :: 0 <= i < |attributes| ==> attributes[i].data.size == attributes[0].data.size)
    && |attributes| < UNSIGNED_INT_LIMIT
  }

  class MeshData {
    /** Owned index buffer; `null` when the indices are not owned. */
    var indexData: array?<byte>
    /** Owned vertex buffer; `null` when the vertex data are not owned. */
    var vertexData: array?<byte>
    var indices: MeshIndexData
    var attributes: seq<MeshAttributeData>
    const importerState: ImporterState

    ghost predicate Valid()
      reads this
    {
      Consistent(indexData, vertexData, indices, attributes)
    }

    /** Takes ownership of the given buffers and stores the descriptors by
        value. */
    constructor (indexData: array?<byte>, vertexData: array?<byte>, indices: MeshIndexData,
                 attributes: seq<MeshAttributeData>, importerState: ImporterState)
      requires Consistent(indexData, vertexData, indices, attributes)
      ensures Valid()
      ensures this.indexData == indexData && this.vertexData == vertexData
      ensures this.indices == indices && this.attributes == attributes
      ensures this.importerState == importerState
    {
      this.indexData := indexData;
      this.vertexData := vertexData;
      this.indices := indices;
      this.attributes := attributes;
      this.importerState := importerState;
    }

    /** `indexData()`: the whole owned index buffer, or the null view when
        the buffer is not owned; the index view lies inside it. */
    function IndexData(): (v: ByteView)
      reads this
      requires Valid()
      ensures v.Valid() && v.memory == indexData && v.offset == 0
      ensures indexData != null ==> v.size == indexData.Length
      ensures indexData != null ==> indices.data.memory == v.memory && indices.data.offset + indices.data.size <= v.size
    {
      if indexData == null then NullView else ArrayView(indexData, 0, indexData.Length, Char)
    }

    /** `vertexData()`: the whole owned vertex buffer, or the null view when
        the buffer is not owned; every attribute points into it. */
    function VertexData(): (v: ByteView)
      reads this
      requires Valid()
      ensures v.Valid() && v.memory == vertexData && v.offset == 0
      ensures vertexData != null ==> v.size == vertexData.Length
      ensures vertexData != null ==> forall i :: 0 <= i < |attributes| ==> attributes[i].data.memory == v.memory
    {
      if vertexData == null then NullView else ArrayView(vertexData, 0, vertexData.Length, Char)
    }

    /** `isIndexed()`: whether the index view's pointer is non-null. */
    function IsIndexed(): (r: bool)
      reads this
      requires Valid()
      ensures r <==> indices.data.memory != null
      ensures !r ==> indices.data.size == 0
    {
      indices.data.memory != null
    }

    /** `indexCount()`: the number of whole indices in the index view. */
    function IndexCount(): (r: uint32)
      reads this
      requires Valid()
      ensures !IsIndexed() ==> r == 0
      ensures indices.data.size / indices.indexType.Width() < UNSIGNED_INT_LIMIT ==>
                r * indices.indexType.Width() == indices.data.size
    {
      ToUnsignedInt(indices.data.size / indices.indexType.Width())
    }

    /** `indexType()`. */
    function IndexType(): (r: MeshIndexType)
      reads this
      ensures r == indices.indexType
    {
      indices.indexType
    }

    /** `indices<T>()`: the index bytes seen as elements of `T`, which must
        be the stored index type; a view of the same memory, not a copy. */
    function IndicesAs(t: ElementType): (v: ArrayView)
      reads this
      requires Valid()
      requires t.IsIndexElement() && MeshIndexTypeFor(t) == indices.indexType
      ensures v.Valid() && v.element == t
      ensures v.memory == indices.data.memory && v.offset == indices.data.offset
      ensures v.ByteSize() == indices.data.size && v.size == indices.data.size / t.Size()
      ensures v.size < UNSIGNED_INT_LIMIT ==> v.size == IndexCount()
      ensures ArrayCast(v, Char) == indices.data
    {
      ArrayCastRoundTrip(indices.data, t);
      ArrayCast(indices.data, t)
    }

    /** `indices()`: every index widened to 32 bits, in order, in a newly
        allocated array. */
    method Indices() returns (output: array<uint32>)
      requires Valid()
      ensures fresh(output)
      ensures output[..] == IndexConversion.Widen(indices.indexType, Bytes(indices.data))
      ensures output.Length == indices.data.size / indices.indexType.Width()
      ensures output.Length < UNSIGNED_INT_LIMIT ==> output.Length == IndexCount()
    {
      output := IndexConversion.ConvertIndices(indices.indexType, Bytes(indices.data));
    }

    /** `vertexCount()`: the element count every attribute has, 0 without
        attributes. */
    function VertexCount(): (r: uint32)
      reads this
      requires Valid()
      ensures |attributes| == 0 ==> r == 0
      ensures forall i :: 0 <= i < |attributes| ==> r == ToUnsignedInt(attributes[i].data.size)
    {
      if |attributes| > 0 then ToUnsignedInt(attributes[0].data.size) else 0
    }

    /** `attributeCount()`: the number of attribute slots, which bounds the
        count of every name. */
    function AttributeCount(): (r: uint32)
      reads this
      requires Valid()
      ensures r == |attributes|
      ensures forall name :: CountOf(attributes, name) <= r
    {
      |attributes|
    }

    /** `attributeCount(name)`: counts the slots carrying `name`. */
    method AttributeCountOf(name: MeshAttributeName) returns (count: uint32)
      requires Valid()
      ensures count == CountOf(attributes, name)
    {
      count := 0;
      for i := 0 to |attributes|
        invariant count == CountOf(attributes[..i], name)
      {
        assert attributes[..i + 1][..i] == attributes[..i];
        if attributes[i].name == name {
          count := count + 1;
        }
      }
      assert attributes[..|attributes|] == attributes;
    }

    /** `hasAttribute(name)`: whether some slot carries `name`. */
    method HasAttribute(name: MeshAttributeName) returns (r: bool)
      requires Valid()
      ensures r <==> CountOf(attributes, name) > 0
      ensures r <==> exists i :: 0 <= i < |attributes| && attributes[i].name == name
    {
      var count := AttributeCountOf(name);
      CountOfPositive(attributes, name);
      r := count != 0;
    }

    /** `attributeName(id)`: the name stored in slot `id`, which the mesh
        therefore has. */
    function AttributeName(id: uint32): (r: MeshAttributeName)
      reads this
      requires Valid()
      requires id < |attributes|
      ensures r == attributes[id].name
      ensures CountOf(attributes, r) > 0
    {
      CountOfPositive(attributes, attributes[id].name);
      attributes[id].name
    }

    /** `attributeType(id)`: the type stored in slot `id`. */
    function AttributeType(id: uint32): (r: MeshAttributeType)
      reads this
      requires Valid()
      requires id < |attributes|
      ensures r == attributes[id].attributeType
    {
      attributes[id].attributeType
    }

    /** `attributeFor(name, id)`: scans the slots in stored order and
        returns the one holding occurrence `id` of `name`. The source
        asserts when there are not that many occurrences. */
    method AttributeFor(name: MeshAttributeName, id: uint32) returns (slot: uint32)
      requires Valid()
      requires id < CountOf(attributes, name)
      ensures slot == NthSlot(attributes, name, id)
    {
      var remaining := id;
      for i := 0 to |attributes|
        invariant CountOf(attributes[..i], name) <= id
        invariant remaining == id - CountOf(attributes[..i], name)
      {
        assert attributes[..i + 1][..i] == attributes[..i];
        if attributes[i].name == name {
          if remaining == 0 {
            OccurrenceUnique(attributes, name, id, i);
            return i;
          }
          remaining := remaining - 1;
        }
      }
      CountOfWhole(attributes, name);
      assert false;
    }

    /** `attributeType(name, id)`: the type of the slot `attributeFor`
        finds. */
    method NamedAttributeType(name: MeshAttributeName, id: uint32) returns (r: MeshAttributeType)
      requires Valid()
      requires id < CountOf(attributes, name)
      ensures r == AttributeType(NthSlot(attributes, name, id))
      ensures r == attributes[NthSlot(attributes, name, id)].attributeType
    {
      var slot := AttributeFor(name, id);
      r := AttributeType(slot);
    }

    /** `attribute<T>(id)`: the elements of slot `id` seen as `T`, which
        must map to the slot's stored type; a view of the same memory with
        the same element count and stride, not a copy. */
    function Attribute(t: ElementType, id: uint32): (v: StridedArrayView)
      reads this
      requires Valid()
      requires id < |attributes|
      requires t.IsVertexElement() && MeshAttributeTypeFor(t) == attributes[id].attributeType
      ensures v.element == t
      ensures v.memory == attributes[id].data.memory && v.offset == attributes[id].data.offset
      ensures v.size == attributes[id].data.size && v.stride == attributes[id].data.stride
      ensures ToUnsignedInt(v.size) == VertexCount()
      ensures vertexData != null ==> v.memory == vertexData
    {
      StridedArrayCast(attributes[id].data, t)
    }

    /** `attribute<T>(name, id)`: `attribute<T>()` of the slot
        `attributeFor` finds. */
    method NamedAttribute(t: ElementType, name: MeshAttributeName, id: uint32) returns (v: StridedArrayView)
      requires Valid()
      requires id < CountOf(attributes, name)
      requires t.IsVertexElement()
      requires MeshAttributeTypeFor(t) == attributes[NthSlot(attributes, name, id)].attributeType
      ensures v == Attribute(t, NthSlot(attributes, name, id))
    {
      var slot := AttributeFor(name, id);
      v := Attribute(t, slot);
    }

    /** `releaseIndices()`: hands back the owned index buffer and resets the
        index view to null; the mesh is then non-indexed and nothing else
        changes. */
    method ReleaseIndices() returns (released: array?<byte>)
      requires Valid()
      modifies this
      ensures Valid()
      ensures released == old(indexData) && indexData == null
      ensures indices == MeshIndexData(old(indices.indexType), NullView)
      ensures vertexData == old(vertexData) && attributes == old(attributes)
      ensures !IsIndexed() && IndexCount() == 0 && IndexType() == old(IndexType())
    {
      indices := indices.(data := NullView);
      released := indexData;
      indexData := null;
    }

    /** `releaseVertices()`: hands back the owned vertex buffer and drops
        every attribute; the index state does not change. */
    method ReleaseVertices() returns (released: array?<byte>)
      requires Valid()
      modifies this
      ensures Valid()
      ensures released == old(vertexData) && vertexData == null
      ensures attributes == []
      ensures indexData == old(indexData) && indices == old(indices)
      ensures AttributeCount() == 0 && VertexCount() == 0
    {
      attributes := [];
      released := vertexData;
      vertexData := null;
    }

    /** `importerState()`. */
    function ImporterStateOf(): (r: ImporterState)
      ensures r == importerState
    {
      importerState
    }
  }

  /** The untyped conversion and the typed index view agree: output element
      `k` is element `k` of `indices<T>()`. */
  lemma IndicesMatchTypedView(mesh: MeshData, t: ElementType, k: nat)
    requires mesh.Valid()
    requires t.IsIndexElement() && MeshIndexTypeFor(t) == mesh.indices.indexType
    requires k < mesh.IndicesAs(t).size
    ensures k < |IndexConversion.Widen(mesh.indices.indexType, Bytes(mesh.indices.data))|
    ensures IndexConversion.Widen(mesh.indices.indexType, Bytes(mesh.indices.data))[k] == Element(mesh.IndicesAs(t), k)
  {
    var bytes := Bytes(mesh.indices.data);
    IndexConversion.WidenAt(mesh.indices.indexType, bytes, k);
    assert Bytes(mesh.IndicesAs(t)) == bytes;
  }

  /** A mesh whose index descriptor comes from a typed view hands that
      very view back from `indices<T>()`, with one index per element. */
  lemma TypedIndicesRoundTrip(mesh: MeshData, v: ArrayView)
    requires mesh.Valid()
    requires v.element.IsIndexElement() && mesh.indices == IndexDataFromView(v)
    ensures mesh.IndicesAs(v.element) == v
    ensures v.size < UNSIGNED_INT_LIMIT ==> mesh.IndexCount() == v.size
  {
    ArrayCastRoundTrip(v, Char);
  }

  /** A slot whose descriptor comes from a typed strided view, with the tag
      of its element type, hands that very view back from
      `attribute<T>()`. */
  lemma TypedAttributeRoundTrip(mesh: MeshData, id: uint32, name: MeshAttributeName, v: StridedArrayView)
    requires mesh.Valid() && id < |mesh.attributes| && v.element.IsVertexElement()
    requires mesh.attributes[id] == AttributeDataFromView(name, MeshAttributeTypeFor(v.element), v)
    ensures mesh.Attribute(v.element, id) == v
  {
  }

  /** The typed-constructor defect at the level of a mesh: four 32-bit
      indices in a 16-byte buffer. The as-written descriptor is accepted by
      the constructor, and every mesh built from it reports one index; the
      intended descriptor gives four. */
  lemma AsWrittenFourInts(mesh: MeshData, ib: array<byte>)
    requires ib.Length == 16
    ensures var v := ArrayView(ib, 0, 4, ElementType.UnsignedInt);
            && Consistent(ib, null, IndexDataFromViewAsWritten(v), [])
            && Consistent(ib, null, IndexDataFromView(v), [])
    ensures var v := ArrayView(ib, 0, 4, ElementType.UnsignedInt);
            mesh.Valid() && mesh.indices == IndexDataFromViewAsWritten(v) ==> mesh.IndexCount() == 1
    ensures var v := ArrayView(ib, 0, 4, ElementType.UnsignedInt);
            mesh.Valid() && mesh.indices == IndexDataFromView(v) ==> mesh.IndexCount() == 4
  {
  }

  /** Releasing the indices twice: the second call hands back no buffer. */
  method ReleaseIndicesTwice(mesh: MeshData) returns (first: array?<byte>, second: array?<byte>)
    requires mesh.Valid()
    modifies mesh
    ensures first == old(mesh.indexData) && second == null
    ensures mesh.Valid() && !mesh.IsIndexed() && mesh.IndexCount() == 0
  {
    first := mesh.ReleaseIndices();
    second := mesh.ReleaseIndices();
  }

  /** Releasing the vertices twice: the second call hands back no buffer. */
  method ReleaseVerticesTwice(mesh: MeshData) returns (first: array?<byte>, second: array?<byte>)
    requires mesh.Valid()
    modifies mesh
    ensures first == old(mesh.vertexData) && second == null
    ensures mesh.Valid() && mesh.AttributeCount() == 0 && mesh.VertexCount() == 0
  {
    first := mesh.ReleaseVertices();
    second := mesh.ReleaseVertices();
  }
}
