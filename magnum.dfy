/** Basic value types of the library: raw memory bytes, the 32-bit
    `UnsignedInt`, the element types that typed views are instantiated with,
    and the little-endian byte order in which memory holds multi-byte
    integers. */
module Magnum {

  /** One byte of memory (the `char` storage of the mesh buffers). */
  type byte = b: int | 0 <= b < 0x100

  const UNSIGNED_INT_LIMIT: nat := 0x1_0000_0000

  /** The 32-bit `UnsignedInt`. */
  type uint32 = x: int | 0 <= x < 0x1_0000_0000

  /** The implicit conversion of a `std::size_t` to `UnsignedInt`: it keeps
      the low 32 bits. */
  function ToUnsignedInt(n: nat): (r: uint32)
    ensures n < UNSIGNED_INT_LIMIT ==> r == n
  {
    n % UNSIGNED_INT_LIMIT
  }

  /** The static element types a view can be instantiated with: `char` for
      type-erased memory, the three index integers and the vector/color
      types of vertex attributes. */
  datatype ElementType =
    | Char
    | UnsignedByte | UnsignedShort | UnsignedInt
    | Vector2 | Vector3 | Color3 | Vector4 | Color4
  {
    /** `sizeof`: bytes per element (vectors and colors are packed floats). */
    function Size(): nat
    {
      match this
      case Char => 1
      case UnsignedByte => 1
      case UnsignedShort => 2
      case UnsignedInt => 4
      case Vector2 => 8
      case Vector3 => 12
      case Color3 => 12
      case Vector4 => 16
      case Color4 => 16
    }

    predicate IsIndexElement()
    {
      UnsignedByte? || UnsignedShort? || UnsignedInt?
    }

    predicate IsVertexElement()
    {
      Vector2? || Vector3? || Color3? || Vector4? || Color4?
    }
  }

  function Pow256(n: nat): (r: nat)
    ensures r > 0
  {
    if n == 0 then 1 else 256 * Pow256(n - 1)
  }

  /** The unsigned integer stored in `s`, least significant byte first. */
  function LittleEndian(s: seq<byte>): (r: nat)
    ensures r < Pow256(|s|)
  {
    if s == [] then 0 else s[0] + 256 * LittleEndian(s[1..])
  }

  /** The `n` bytes that store `x` (modulo 256^n), least significant first. */
  function ToLittleEndian(x: nat, n: nat): (s: seq<byte>)
    ensures |s| == n
  {
    if n == 0 then [] else [x % 256] + ToLittleEndian(x / 256, n - 1)
  }

  /** Reading an integer out of memory and storing it back reproduces the
      bytes. */
  lemma {:induction false} LittleEndianRoundTrip(s: seq<byte>)
    ensures ToLittleEndian(LittleEndian(s), |s|) == s
  {
    if s != [] {
      var x := LittleEndian(s);
      assert x % 256 == s[0] && x / 256 == LittleEndian(s[1..]);
      LittleEndianRoundTrip(s[1..]);
    }
  }

  /** Storing an integer that fits and reading it back gives the integer. */
  lemma {:induction false} ToLittleEndianRoundTrip(x: nat, n: nat)
    requires x < Pow256(n)
    ensures LittleEndian(ToLittleEndian(x, n)) == x
  {
    if n > 0 {
      assert x / 256 < Pow256(n - 1);
      ToLittleEndianRoundTrip(x / 256, n - 1);
    }
  }

  /** Element `i` of an array of `width`-byte little-endian integers. */
  function ReadLittleEndian(bytes: seq<byte>, width: nat, i: nat): (x: nat)
    requires (i + 1) * width <= |bytes|
    ensures x < Pow256(width)
  {
    LittleEndian(bytes[i * width .. (i + 1) * width])
  }

  lemma MulMonotone(a: nat, b: nat, w: nat)
    requires a <= b
    ensures a * w <= b * w
  {
  }

  lemma SizeDivCancel(t: ElementType, a: nat)
    ensures t.Size() > 0
    ensures (a * t.Size()) / t.Size() == a && (a * t.Size()) % t.Size() == 0
  {
    match t
    case Char =>
    case UnsignedByte =>
    case UnsignedShort =>
    case UnsignedInt =>
    case Vector2 =>
    case Vector3 =>
    case Color3 =>
    case Vector4 =>
    case Color4 =>
  }
}
