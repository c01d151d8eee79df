# Magnum `Trade::MeshData`, modelled in Dafny

This project models the mesh container `Trade::MeshData` of the Magnum
graphics library and its two descriptor records, `MeshIndexData` and
`MeshAttributeData`.

A mesh holds four things:

- an index byte buffer it may own, and a vertex byte buffer it may own;
- one index descriptor: an index type tag and a byte view of the indices;
- an ordered list of attribute descriptors: a name, a type tag and a strided
  byte view into vertex memory;
- an opaque importer-state pointer.

The model follows the shape of the code:

- **Memory and views.** Memory blocks are Dafny arrays of bytes, and `null`
  is the null pointer. A view (`Containers.ArrayView`,
  `Containers.StridedArrayView`) is a value that records which array it
  points into, a byte offset, an element count, a stride for strided views,
  and the static element type `T`. So "a view of the same memory, not a
  copy" is stated as equality of array references. `arrayCast<T>()` is
  `Containers.ArrayCast` for contiguous views and `Containers.StridedArrayCast`
  for strided ones.
- **Type tags and tables.** `MeshIndexType`, `MeshAttributeType` and
  `MeshAttributeName` are datatypes in module `MeshTypes`. The compile-time
  tables `meshIndexTypeFor<T>()` and `meshAttributeTypeFor<T>()` are
  functions over the element type of a view.
- **Descriptors.** `MeshIndexData` and `MeshAttributeData` are datatypes in
  module `MeshDescriptors`, with one function per constructor.
  - The runtime-typed `MeshIndexData(type, data)` constructor is the
    datatype constructor itself. It stores both arguments unchanged.
  - The typed constructors are modelled twice, as written and as intended
    (see "## Findings").
- **The mesh.** `MeshData` is a class in module `Mesh`. Its fields are the
  two owned buffers, the index descriptor, the attribute descriptors (a
  `seq` the release operation reassigns) and the importer state.
  - Reading accessors without a loop are functions, except three that
    call a method and so are methods themselves: `hasAttribute()` calls
    `attributeCount(name)`, and `attributeType(name, id)` and
    `attribute<T>(name, id)` call `attributeFor()`.
  - The loops of `attributeCount(name)`, `attributeFor()` and the
    `convertIndices<T>()` helper (`IndexConversion.ConvertIndices`) are
    methods with loop invariants. `indices()` is a method that calls
    `convertIndices<T>()`.
  - The two release operations are methods that modify the object.
- **Specifications.** The loops are proved against specification
  functions:
  - `AttributeLookup.CountOf` is the number of slots that carry a name.
  - `AttributeLookup.NthSlot` is the slot of the `n`-th occurrence of a
    name, in stored order.
  - `IndexConversion.Widen` is the sequence of indices stored in a buffer.
  Lemmas then prove what these functions mean: uniqueness of the
  occurrence, the count's relation to presence, and widening as the inverse
  of storing (`IndexConversion.Narrow`).

The constructor checks nothing (MeshData.cpp:31-33). Its precondition and
the class invariant (`Mesh.Consistent`, `MeshData.Valid`) collect what a
well-formed mesh needs. The source documents two of these expectations:

- the index view's size is a whole number of indices (MeshData.h:135-137);
- an owned buffer is the memory its views point into (MeshData.h:229-233).

The source also documents a third, by defining the vertex count as the
element count of every attribute (MeshData.h:332-333), and leaves checking
it as a TODO (MeshData.cpp:33):

- all attributes have the same number of elements.

The rest are the model's own requirements:

- the index view lies inside its memory, which is this model's validity
  condition for a view;
- there are fewer than 2^32 attribute slots, so that 32-bit slot ids reach
  every slot.

Two behaviours of the code worth noting:

- The `MeshAttributeData` constructor takes the attribute type as an
  explicit argument. It does not compare that type with `T`
  (MeshData.h:199).
- `isIndexed()` tests that the index view's pointer is non-null, not that
  the view is non-empty (MeshData.h:300).
- `releaseIndices()` nulls only the index view (MeshData.cpp:105). The
  index type stays what it was, although the documentation says that the
  release resets the index-related state to default (MeshData.h:487-489)
  and that `indexType()` of a non-indexed mesh is a default-constructed
  value (MeshData.h:312). `Mesh.MeshData.ReleaseIndices` follows the code:
  `IndexType()` is unchanged after the release.

Integers are unbounded in Dafny, so the 32-bit `UnsignedInt` is the subset
type `Magnum.uint32`. The implicit `std::size_t` to `UnsignedInt`
conversions in `indexCount()` and `vertexCount()` keep the low 32 bits
(`Magnum.ToUnsignedInt`). Multi-byte indices are read in little-endian byte
order.

## Model

| member | source | states |
|---|---|---|
| MeshTypes.MeshIndexTypeFor | src/Magnum/Trade/MeshData.h:527-530 | defined only for the three index integers, each mapped to its namesake tag; the tag's width is `sizeof(T)` |
| MeshTypes.MeshAttributeTypeFor | src/Magnum/Trade/MeshData.h:532-537 | defined only for Vector2/3/4 and Color3/4; Color3 maps to Vector3 and Color4 to Vector4; the tag's size is `sizeof(T)` |
| MeshTypes.MeshAttributeTypeForBySize | src/Magnum/Trade/MeshData.h:532-537 | two vertex element types get the same tag if and only if they have the same size |
| Containers.ArrayCast | src/Magnum/Trade/MeshData.h:545 | `arrayCast<T>` keeps the memory, the offset and the byte size, retypes the elements and keeps the view inside its memory |
| Containers.ArrayCastRoundTrip | src/Magnum/Trade/MeshData.h:545 | casting a view to another element type and back gives the original view |
| Containers.StridedArrayCast | src/Magnum/Trade/MeshData.h:553 | the strided cast keeps memory, offset, element count and stride |
| MeshDescriptors.IndexDataFromView | src/Magnum/Trade/MeshData.h:146-152 | corrected typed constructor: the tag is that of `T`; the byte view covers exactly the given elements, a whole number of indices, one index per element; casting it back to `T` gives the given view |
| MeshDescriptors.IndexDataFromViewAsWritten | src/Magnum/Trade/MeshData.h:146-152 | typed constructor as written: the tag is that of `T`, same memory and offset, byte size equal to the element count |
| MeshDescriptors.AsWrittenDropsWideIndices | src/Magnum/Trade/MeshData.h:149-152 | for non-empty 16- and 32-bit views, the as-written descriptor is shorter than the intended one and describes fewer indices than were given |
| MeshDescriptors.AsWrittenThreeShorts | src/Magnum/Trade/MeshData.h:149 | three 16-bit indices give a 3-byte descriptor, not a whole number of indices, on which the `size/2` of `indexCount()` (MeshData.cpp:45) gives 1 instead of 3 |
| MeshDescriptors.AsWrittenKeepsByteIndices | src/Magnum/Trade/MeshData.h:146 | for 8-bit indices the as-written and the intended constructor agree |
| MeshDescriptors.DefaultAttributeData | src/Magnum/Trade/MeshData.h:191 | the default descriptor has the first name, the first type and the null strided view: no memory, offset 0, no elements, stride 0 |
| MeshDescriptors.AttributeDataFromView | src/Magnum/Trade/MeshData.h:199 | keeps the given name and type; casting the stored byte view back to `T` gives the given view |
| IndexConversion.Decode | src/Magnum/Trade/MeshData.cpp:81 | an index read from the buffer fits in its type's width, and so in 32 bits |
| IndexConversion.Widen | src/Magnum/Trade/MeshData.cpp:78-83 | the widened sequence has one entry per whole index of the buffer |
| IndexConversion.WidenAt | src/Magnum/Trade/MeshData.cpp:81 | entry `i` of the widened sequence is index `i` of the buffer |
| IndexConversion.NarrowWiden | src/Magnum/Trade/MeshData.cpp:78-83 | widening loses nothing: storing the widened indices back at the buffer's width gives the original bytes |
| IndexConversion.WidenNarrow | src/Magnum/Trade/MeshData.cpp:78-83 | widening a buffer that stores values that fit the width gives those values, in order |
| IndexConversion.WidenByteIndices | src/Magnum/Trade/MeshData.cpp:88 | 8-bit indices widen to their own byte values |
| IndexConversion.WidenByteExample | src/Magnum/Trade/MeshData.cpp:88 | the byte indices 1, 2, 255 widen to 1, 2, 255 |
| IndexConversion.ConvertIndices | src/Magnum/Trade/MeshData.cpp:78-83 | returns a fresh array whose contents are the widened indices of the buffer |
| AttributeLookup.CountOf | src/Magnum/Trade/MeshData.cpp:52-57 | the count of a name never exceeds the number of slots |
| AttributeLookup.CountOfSplit | src/Magnum/Trade/MeshData.cpp:54-55 | the count over a list is the sum of the counts over its two parts |
| AttributeLookup.CountOfPositive | src/Magnum/Trade/MeshData.h:355-357 | the count of a name is positive if and only if some slot carries the name |
| AttributeLookup.NthSlot | src/Magnum/Trade/MeshData.cpp:71-73 | for `n` below the count, the slot carries the name and exactly `n` earlier slots carry it |
| AttributeLookup.CountOfPastOccurrence | src/Magnum/Trade/MeshData.cpp:73 | a slot that carries the name raises the count of every longer prefix |
| AttributeLookup.OccurrenceUnique | src/Magnum/Trade/MeshData.cpp:71-73 | any slot that carries the name after exactly `n` earlier ones is the one `NthSlot` names, and `n` is below the count: the lookup is determined by the stored order |
| AttributeLookup.ColorsExample | src/Magnum/Trade/MeshData.cpp:71-73 | with Colors, Positions3D, Colors, the two Colors occurrences are slots 0 and 2 and the count is 2 |
| Mesh.MeshData.constructor | src/Magnum/Trade/MeshData.cpp:30-34 | stores the buffers, descriptors and importer state as given and establishes the invariant, given the documented expectations and the model's view and slot bounds |
| Mesh.MeshData.IndexData | src/Magnum/Trade/MeshData.h:276 | the whole owned index buffer, or the null view; the index view lies inside it |
| Mesh.MeshData.VertexData | src/Magnum/Trade/MeshData.h:292 | the whole owned vertex buffer, or the null view; every attribute points into it |
| Mesh.MeshData.IsIndexed | src/Magnum/Trade/MeshData.h:300 | true if and only if the index view's pointer is non-null; a non-indexed mesh has an empty index view |
| Mesh.MeshData.IndexCount | src/Magnum/Trade/MeshData.cpp:42-50 | 0 for a non-indexed mesh; index count times width equals the index byte size |
| Mesh.MeshData.IndexType | src/Magnum/Trade/MeshData.h:315 | the stored index type tag |
| Mesh.MeshData.IndicesAs | src/Magnum/Trade/MeshData.h:542-546 | with the tag of `T` equal to the stored type: a view of the same memory and offset typed as `T`, byte size / width elements (the index count), which casts back to the stored byte view |
| Mesh.MeshData.Indices | src/Magnum/Trade/MeshData.cpp:86-94 | a fresh array of `indexCount()` entries holding every stored index widened to 32 bits, in order |
| Mesh.MeshData.VertexCount | src/Magnum/Trade/MeshData.h:337-339 | 0 without attributes, otherwise the element count of every attribute, slot 0 included |
| Mesh.MeshData.AttributeCount | src/Magnum/Trade/MeshData.h:348 | the number of slots, which bounds the count of every name |
| Mesh.MeshData.AttributeCountOf | src/Magnum/Trade/MeshData.cpp:52-57 | the number of slots carrying the name |
| Mesh.MeshData.HasAttribute | src/Magnum/Trade/MeshData.h:355-357 | true if and only if the count of the name is positive, if and only if some slot carries the name |
| Mesh.MeshData.AttributeName | src/Magnum/Trade/MeshData.cpp:59-63 | for an id in range, the stored name, which the mesh therefore has |
| Mesh.MeshData.AttributeType | src/Magnum/Trade/MeshData.cpp:65-69 | for an id in range, the stored type |
| Mesh.MeshData.AttributeFor | src/Magnum/Trade/MeshData.cpp:71-75 | for an occurrence below the count, the slot of that occurrence of the name in stored order |
| Mesh.MeshData.NamedAttributeType | src/Magnum/Trade/MeshData.h:394-396 | `attributeType()` of the slot `attributeFor()` finds |
| Mesh.MeshData.Attribute | src/Magnum/Trade/MeshData.h:548-554 | for an id in range whose stored type is the tag of `T`: a view of the same memory, offset, element count (the vertex count) and stride, typed as `T` |
| Mesh.MeshData.NamedAttribute | src/Magnum/Trade/MeshData.h:421-423 | `attribute<T>()` of the slot `attributeFor()` finds |
| Mesh.MeshData.ReleaseIndices | src/Magnum/Trade/MeshData.cpp:104-107 | returns the owned index buffer; afterwards not indexed, index count 0, same index type, vertex state untouched, invariant kept |
| Mesh.MeshData.ReleaseVertices | src/Magnum/Trade/MeshData.cpp:109-112 | returns the owned vertex buffer; afterwards no attributes and vertex count 0, index state untouched, invariant kept |
| Mesh.MeshData.ImporterStateOf | src/Magnum/Trade/MeshData.h:509 | the importer state given at construction, unchanged |
| Mesh.IndicesMatchTypedView | src/Magnum/Trade/MeshData.cpp:86-94 | entry `k` of `indices()` is element `k` of `indices<T>()` |
| Mesh.TypedIndicesRoundTrip | src/Magnum/Trade/MeshData.h:542-546 | a mesh built from a typed index view gives that view back from `indices<T>()`, with one index per element |
| Mesh.TypedAttributeRoundTrip | src/Magnum/Trade/MeshData.h:548-554 | a slot built from a typed strided view with its type's tag gives that view back from `attribute<T>()` |
| Mesh.AsWrittenFourInts | src/Magnum/Trade/MeshData.h:152 | four 32-bit indices in a 16-byte buffer: both descriptors meet the constructor's expectations; a mesh built from the as-written one reports 1 index, one built from the intended one reports 4 |
| Mesh.ReleaseIndicesTwice | src/Magnum/Trade/MeshData.cpp:104-107 | a second `releaseIndices()` returns no buffer |
| Mesh.ReleaseVerticesTwice | src/Magnum/Trade/MeshData.cpp:109-112 | a second `releaseVertices()` returns no buffer |

## Left out

- Mesh.MeshData.IndexCount: for an index view of 2^32 or more indices the contract states nothing; the body keeps the low 32 bits of the count, as the implicit conversion does.
- Constructor validation: the source checks nothing (the TODOs at MeshData.cpp:31-33 and MeshData.h:235). The documented expectations are a precondition of the constructor instead, so no rejection of a mismatched mesh is modelled.
- The 2^32 bound on attribute slots is part of the class invariant; meshes with more slots are not modelled.
- Move constructor, move assignment and destructor (defaulted), the deleted copy operations and the deleted `&&` overloads are C++ lifetime mechanics.
- The `Debug` stream operators for the enums are stream output.
- `positions2D()` does not compile as written, and `positions3D()`, `normals()`, `textureCoordinates2D()` and `colors()` are only declared. All five are float conversions and are not modelled.
- Floating-point attribute values are never interpreted; only view geometry and type tags are modelled.
- Platform byte order: indices are read little-endian.
- The bounds of strided attribute views against their memory, and the size and stride checks Corrade makes inside the strided `arrayCast`, are not modelled; attribute views are kept as given. (The contiguous cast's divisibility check is modelled as a precondition of `Containers.ArrayCast`.)
- Attribute names are the five named values and the custom range 128-255; the unnamed values 5-127 of the underlying byte are not representable.
- The unused fields `_primitive` and `_indexType` and the meshlet TODO comments.
- The importer state is an opaque number that is stored and handed back, never dereferenced.
- `_attributes` being non-null is modelled as the attribute list being non-empty in `vertexCount()`, since an empty Corrade array holds a null pointer.
- The `CORRADE_ASSERT` checks of the accessors become preconditions, so the graceful-assert fallback return values (`{}`, `nullptr`) are not modelled.

## Findings

| source | as written | input that shows it | evidently intended | confidence | as-written member | corrected member |
|---|---|---|---|---|---|---|
| src/Magnum/Trade/MeshData.h:149-152 | the typed `MeshIndexData` constructors `reinterpret_cast` an `ArrayView<UnsignedShort>` or `ArrayView<UnsignedInt>` object to an `ArrayView<char>`, which keeps the element count as the byte size | three 16-bit indices: the descriptor covers 3 bytes, not a whole number of indices; four 32-bit indices: a well-formed mesh whose `indexCount()` is 1 (`Mesh.AsWrittenFourInts`) | a byte view covering all `size * sizeof(T)` bytes (an `arrayCast<char>`), so that `indexCount()` is 3 and 4 respectively | not executed | MeshDescriptors.IndexDataFromViewAsWritten | MeshDescriptors.IndexDataFromView |
