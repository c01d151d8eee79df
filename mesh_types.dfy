/** The type tags and names a mesh stores, and the static tables that map
    the element type of a typed view to its tag. */
module MeshTypes {
  import Magnum

  /** `MeshIndexType`: the integer type of the index buffer. */
  datatype MeshIndexType = UnsignedByte | UnsignedShort | UnsignedInt
  {
    /** Bytes per index, the divisor `indexCount()` uses. */
    function Width(): nat
    {
      match this
      case UnsignedByte => 1
      case UnsignedShort => 2
      case UnsignedInt => 4
    }
  }

  /** `MeshAttributeType`: the shape of one attribute element, two, three or
      four packed floats. */
  datatype MeshAttributeType = Vector2 | Vector3 | Vector4
  {
    function Size(): nat
    {
      match this
      case Vector2 => 8
      case Vector3 => 12
      case Vector4 => 16
    }
  }

  /** The byte values at or above `Custom` (128) that importers use for their
      own attributes. */
  type CustomValue = v: int | 128 <= v < 256 witness 128

  /** `MeshAttributeName`: the fixed vocabulary, and the importer-specific
      names, which never equal a name of the vocabulary. */
  datatype MeshAttributeName =
    | Positions2D | Positions3D | Normals | TextureCoordinates2D | Colors
    | Custom(value: CustomValue)

  /** `meshIndexTypeFor<T>()`: it is declared only for the three index
      integers; the tag it gives has the width of `T`. */
  function MeshIndexTypeFor(t: Magnum.ElementType): (r: MeshIndexType)
    requires t.IsIndexElement()
    ensures r.Width() == t.Size()
  {
    match t
    case UnsignedByte => UnsignedByte
    case UnsignedShort => UnsignedShort
    case UnsignedInt => UnsignedInt
  }

  /** `meshAttributeTypeFor<T>()`: it is declared only for the vector and
      color types; a 3-component color shares the tag of a 3-component
      vector, and the tag always has the size of `T`. */
  function MeshAttributeTypeFor(t: Magnum.ElementType): (r: MeshAttributeType)
    requires t.IsVertexElement()
    ensures r.Size() == t.Size()
  {
    match t
    case Vector2 => Vector2
    case Vector3 => Vector3
    case Color3 => Vector3
    case Vector4 => Vector4
    case Color4 => Vector4
  }

  /** Two vertex element types share a tag exactly when they have the same
      size. */
  lemma MeshAttributeTypeForBySize(t: Magnum.ElementType, u: Magnum.ElementType)
    requires t.IsVertexElement() && u.IsVertexElement()
    ensures MeshAttributeTypeFor(t) == MeshAttributeTypeFor(u) <==> t.Size() == u.Size()
  {
  }
}
